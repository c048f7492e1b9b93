# Verified model of the uppy game backend

This project models, in Dafny, the hard core of the cooperative balloon game: the room state
machine, the tick physics, nickname handling, the binary snapshot format between the Go server
and the TypeScript client, the refresh-token lifecycle, the debounced save loop, the email
stream and the pagination of lobbies. What the code and its documentation promise is stated as
lemmas over every input, every run or every reachable state.

`dafny verify dfyconfig.toml` verifies everything; no other tool or library is needed.

## How the model is organised

Code that computes values is functions and lemmas. Code that changes things step by step is
methods with loops and classes with updated fields, and each such method is proved to do what a
specification function says; the theorems are about those functions.

| file | what it holds |
|---|---|
| `Prelude.dfy` | options, bytes, phases, decimal notation |
| `GoStrings.dfy` | Go strings: bytes read as runes, and what rereading can join |
| `Nicknames.dfy` | sanitizing and accepting nicknames, pass by pass on bytes |
| `SmuggledNames.dfy` | three payloads of invalid UTF-8 that get past the sanitizer |
| `NamePools.dfy`, `NameGenerator.dfy` | the word pools and the three-stage search for an unused name |
| `Physics.dfy`, `PhysicsObject.dfy` | balloon, wind, bird and ghost over the reals; the same updated in place |
| `PhysicsLaws.dfy` | what those motions mean, in directions and sizes |
| `RoomModel.dfy` | a room as a state machine: one step per critical section, timer firing or lock-free removal |
| `RoomInvariants.dfy` | the aggregate invariant of a room, kept by every step |
| `RoomFlow.dfy` | phases, alarms and sessions over whole runs |
| `RoomEdges.dfy` | the exact guards under which a step leaves the documented phase cycle |
| `RoomGames.dfy` | runs of new rooms that play, lose, restart, and take each undocumented edge |
| `RoomQuiet.dfy` | restored rooms without an alarm, and closed rooms |
| `RoomScores.dfy` | where the balloon's score comes from |
| `RoomWorld.dfy` | entity validity and tapless games over whole runs |
| `RoomRate.dfy` | the message rate limit over any interval |
| `RoomGrace.dfy` | the thirty seconds in which a player who left keeps the seat |
| `RoomLaws.dfy` | what newcomers get, whom a restart keeps, whom timers and limits remove |
| `RoomCooldowns.dfy` | the waits after a tap and after a change of nickname |
| `Room.dfy` | the room object with the handlers' own statements and loops, and its whole runs |
| `Utf8.dfy`, `SnapshotCodec.dfy` | UTF-8, the snapshot encoder and the client's decoder |
| `RoomSnapshots.dfy` | from a room, over the wire, to what the client shows |
| `RefreshTokens.dfy` | tokens, reuse markers, the per-user index, RefreshSession |
| `PersistLoop.dfy` | the debounced save loop |
| `EmailStream.dfy` | retries, dead letters and acknowledgements |
| `LobbyPages.dfy` | keyset pagination and its cursors |

Conventions. The clock, random draws, new UUIDs and tokens, the tap cooldown, and the answers of
PostgreSQL, Redis and the mail service are inputs chosen by the environment. A `Math` record
stands for hypot, cos, sin and atan2; where their values matter it is required to be lawful
(hypot is the nonnegative root of the sum of squares, cos and sin form a unit vector). A float32
on the wire is its 32-bit pattern. Panics and error returns are `None`, `Failed`, `crashed`, and
so on, never a precondition.

A room's step machine includes what concurrency allows: the alarm callback keeps its separate
stages (armed, fired, past its version check), nickname and start-delay callbacks may run at any
time, and connections may vanish between two looks a section takes at them, because their
removal does not need the room's lock.

## Where the code differs from its comments

- The straight phase order in the comment at `backend/internal/game/room.go:244` is not what the
  code does. `RoomEdges.LeavesCycleIff` gives, for every step, the guards under which it leaves that
  cycle; `RoomGames.GamesAreInterrupted` and `RoomGames.GamesRestart` are runs that do.
- `SanitizeNickname` is not idempotent; `Nicknames.IdempotentIff` says exactly when one pass is
  enough. On valid UTF-8 two passes always are (`Nicknames.TwiceIsCanonical`).
- On invalid UTF-8 the deletions of one pass can join bytes to a rune that only the next pass would
  delete. A stored nickname is then valid, short, trimmed and free of ASCII control and HTML
  characters (`Nicknames.StoredIsSafe`), but it can be a control character or start with a byte
  order mark (`SmuggledNames.ControlIsStored`, `SmuggledNames.BomIsStored`), and a payload that one
  pass leaves nonempty can be refused (`SmuggledNames.EmptiedBySecondPass`).
  `Nicknames.StoredIsCanonicalIff` is the exact condition; valid UTF-8, which is all a browser sends,
  meets it.
- The name generator always finds a free name exactly while at most 97 names are taken
  (`NameGenerator.AlwaysFreshIff`).
- The limit of 100 messages per minute allows 199 messages within some interval of 60 seconds,
  and, once a player's first window is under way, no more.
- A tap at the score cap of 9999 still moves the balloon and its score but starts no cooldown
  (`RoomCooldowns.TapStartsCooldown`).
- A nickname that starts with U+FEFF loses it in the browser, because TextDecoder strips a byte
  order mark (`RoomSnapshots.StoredNameShown`); a reachable room has one
  (`RoomSnapshots.MarkIsNotShown`), a room that only ever got valid UTF-8 has none
  (`RoomSnapshots.ValidRunsShowNames`).
- A room restored in countdown or after its end has no alarm until one of a few steps sets one
  (`RoomQuiet.RestoredStuckIff`).
- Closing a room does not stop an alarm callback that is past its check: `RoomQuiet.ClosedMovesIff`
  says exactly when a closed room still moves, and `RoomQuiet.GhostStart` is a run that does.
- A negative retry count in an email entry makes the worker panic (`EmailStream.NegativeCountPanics`).
- A permanent send failure acknowledges the email even if the dead-letter add failed
  (`EmailStream.CarelessLosesMail`); without that event nothing is lost
  (`EmailStream.AtLeastOnceWhenCareful`).
- `RestoreRooms` passes a bare lobby code as cursor, so it fails as soon as a page is full
  (`LobbyPages.RestorePages`).

## Model

| member | source | states |
|---|---|---|
| `GoStrings.BytesOfRead` | backend/internal/domain/room.go:128-143 | reading a byte string as runes and writing the runes gives the bytes back |
| `GoStrings.RereadJoins` | backend/internal/domain/room.go:132-139 | reading again what a deletion left never lengthens the text, and adds only runes above ASCII joined from bad bytes |
| `GoStrings.EncodedIsScalar` | frontend/src/game/message_codec.ts:35-47 | the bytes a TextEncoder sends are read back as the text, without a bad byte |
| `Nicknames.TrimNormal` | backend/internal/domain/room.go:134-136 | trimming never changes how the remaining bytes are read |
| `Nicknames.CollapseNormal` | backend/internal/domain/room.go:137-137 | neither does collapsing blanks |
| `Nicknames.FixedPointIff` | backend/internal/domain/room.go:128-143 | a name is unchanged by SanitizeNickname if and only if it is canonical: clean, single blanks, trimmed, at most 12 runes |
| `Nicknames.TwiceIsCanonical` | backend/internal/domain/room.go:128-143 | on valid UTF-8 sanitizing twice yields a canonical name, a third pass changes nothing, and nonempty stays nonempty |
| `Nicknames.IdempotentIff` | backend/internal/domain/room.go:128-143 | for every payload one pass is a fixed point if and only if its deletions brought no forbidden rune together within the limit and the limit does not cut right after a space |
| `Nicknames.NotIdempotent` | backend/internal/domain/room.go:128-143 | a concrete name on which a second pass changes the result |
| `Nicknames.SanitizeIsTidy` | backend/internal/domain/room.go:128-143 | for every payload the result is free of ASCII control and HTML characters, blank-collapsed, trimmed in front and at most 12 runes |
| `Nicknames.StoredIsSafe` | backend/internal/game/state.go:106-138 | for every payload a stored nickname is nonempty valid UTF-8 of at most 12 code points, trimmed, blank-collapsed, without ASCII control or HTML characters |
| `Nicknames.StoredIsCanonicalIff` | backend/internal/game/state.go:106-138 | for every payload the stored nickname is canonical if and only if the second pass's deletions leave no forbidden rune |
| `Nicknames.StoredWithoutJoins` | backend/internal/game/state.go:106-138 | it is canonical whenever deleting commutes with decoding in the second pass, valid UTF-8 or not |
| `Nicknames.StoredFromText` | backend/internal/game/state.go:106-138 | for valid UTF-8 the stored nickname is canonical, and the message is refused exactly when sanitizing leaves nothing |
| `SmuggledNames.ControlIsStored` | backend/internal/domain/room.go:132-142 | C2 C2 00 80 80 is stored as U+0080, which another pass would delete |
| `SmuggledNames.EmptiedBySecondPass` | backend/internal/domain/room.go:86-96 | C2 00 80 is nonempty after one pass and refused after the second |
| `SmuggledNames.BomIsStored` | backend/internal/domain/room.go:132-142 | EF EF 3C BB BF BB BF 61 62 63 is stored as U+FEFF and "abc" |
| `Nicknames.ShortFitsLengthByte` | backend/internal/protocol/encode.go:145-150 | a name of at most 12 runes takes at most 48 bytes |
| `NameGenerator.Search` | backend/internal/nicknames/generator.go:37-63 | a search loop returns the first candidate that is short enough and unused, or nothing |
| `NameGenerator.GenerateRandom` | backend/internal/nicknames/generator.go:37-63 | the three search stages compute the specified name |
| `NameGenerator.PairsFirst` | backend/internal/nicknames/generator.go:37-47 | a free drawn pair is taken before any suffixed or numbered name, the first draw first |
| `NameGenerator.GeneratedIsCanonical` | backend/internal/nicknames/generator.go:37-63 | every generated name is nonempty, canonical and unchanged by sanitizing |
| `NameGenerator.FreshName` | backend/internal/nicknames/generator.go:37-63 | with at most 97 names taken the result is unused, whatever the draws |
| `NameGenerator.NinetyEightCanCollide` | backend/internal/nicknames/generator.go:37-63 | 98 taken names and draws for which the result is taken |
| `NameGenerator.AlwaysFreshIff` | backend/internal/nicknames/generator.go:37-63 | the guarantee holds for n taken names if and only if n is at most 97 |
| `Physics.TickWorldOk` | backend/internal/game/physics.go:11-302 | one tick keeps the entity invariant: positions, ghost band and speed, repel timer, wind bound |
| `Physics.TapWorldOk` | backend/internal/game/physics.go:45-66 | a tap keeps the entity invariant |
| `Physics.BlowOk` | backend/internal/game/physics.go:82-111 | the wind stays within 0.503 in size, and the clamp at 0.65 never changes a value |
| `Physics.TickDrift` | backend/internal/game/physics.go:16-28 | a tick keeps the sideways speed within the larger of its bound and 0.01006 |
| `Physics.TickFallen` | backend/internal/game/physics.go:11-42 | a surviving tick keeps the free-fall bound on height and vertical speed, ceiling clamp included |
| `Physics.InitialBalloonLands` | backend/internal/game/state.go:228-236 | a balloon that obeys the free-fall bound from the start is down before tick 62 |
| `Physics.WorldOkIsValid` | backend/internal/domain/game_state.go:26-73 | the entity invariant implies the three Validate checks |
| `PhysicsLaws.TapPushes` | backend/internal/game/physics.go:45-66 | a tap is effective exactly within 0.35; then it pushes straight away from the finger with size 0.025 times 1 - d/0.35, and straight up by 0.025 at the centre |
| `PhysicsLaws.FallFlies` | backend/internal/game/physics.go:11-42 | the balloon moves by its velocity, loses 0.0005 of it upwards and one percent sideways, turns back from walls at half speed and stops at the ceiling |
| `PhysicsLaws.DriftBlows` | backend/internal/game/physics.go:97-110 | the wind pushes where it blows, fully in the middle, not at the edges, never more than 0.0002 of its strength |
| `PhysicsLaws.WindApproaches` | backend/internal/game/physics.go:82-95 | each tick the wind closes 1.2 percent of the way to where it is heading |
| `PhysicsLaws.BirdAims` | backend/internal/game/physics.go:123-132 | the bird turns straight towards the balloon at speed 0.003 |
| `PhysicsLaws.BirdMoves` | backend/internal/game/physics.go:151-167 | an active bird moves by its velocity and is gone for 15 to 30 ticks exactly when it is off the screen |
| `PhysicsLaws.EntersAtTheSide` | backend/internal/game/physics.go:136-150 | a new bird enters at a side edge at a height of 0.2 to 0.8 |
| `PhysicsLaws.GhostEntersInward` | backend/internal/game/state.go:251-274 | a new ghost enters at a side edge, moving inwards |
| `PhysicsLaws.RepelPushesAway` | backend/internal/game/physics.go:240-250 | a repelled ghost is pushed straight away from the balloon by 0.01 |
| `PhysicsLaws.SteerPullsNear` | backend/internal/game/physics.go:252-263 | a ghost within 0.4 is drawn straight towards the balloon by 0.001 |
| `PhysicsLaws.SteerWanders` | backend/internal/game/physics.go:265-270 | farther away it keeps its course, or every thirtieth tick takes a new one at speed 0.002 |
| `PhysicsLaws.ClampKeepsCourse` | backend/internal/game/physics.go:272-279 | a ghost faster than 0.008 is slowed to that on the same course |
| `PhysicsLaws.GhostMoves` | backend/internal/game/physics.go:217-231 | a ghost moves by its velocity and is turned back at 0.02 and 0.98 |
| `PhysicsLaws.HitsAreEllipses` | backend/internal/game/physics.go:178-188 | bird and ghost hit only while active, exactly up to their half axes along the axes, certainly within the inner circle and never outside the box |
| `PhysicsLaws.CollideKnocks` | backend/internal/game/physics.go:292-299 | a hit knocks the balloon down by 0.015 and the ghost off at speed 0.006 |
| `PhysicsLaws.GameStartsAtRest` | backend/internal/game/state.go:202-248 | balloon, bird, wind and counters of a new game |
| `PhysicsLaws.GhostLeaves` | backend/internal/game/physics.go:233-237 | an active ghost is gone, for 15 to 30 ticks, exactly when it has left the screen by 0.15 |
| `PhysicsLaws.AbsentCountDown` | backend/internal/game/physics.go:194-209 | an absent ghost or bird counts down to its return and does nothing else |
| `PhysicsLaws.WindCounters` | backend/internal/game/physics.go:73-95 | target and offset of the wind change only when their counters run out |
| `PhysicsLaws.EndsInOrder` | backend/internal/game/room_tick.go:137-158 | the ground is looked at first, then the ghost, then the bird, and the reason says which was hit |
| `PhysicsObject.Entities.constructor` | backend/internal/game/state.go:166-177 | a new game starts from the initial balloon, an inactive bird, a spawned ghost and the initial wind, all within bounds |
| `PhysicsObject.Entities.ApplyPhysics` | backend/internal/game/physics.go:11-42 | the balloon flies by the law of free flight, and the game is over exactly when it is not above the ground |
| `PhysicsObject.Entities.UpdateWind` | backend/internal/game/physics.go:82-111 | the wind changes as specified and pushes the balloon where it blows, nothing else |
| `PhysicsObject.Entities.UpdateBirdAI` | backend/internal/game/physics.go:135-168 | the bird spawns, flies, re-aims and leaves as specified, nothing else changes |
| `PhysicsObject.Entities.UpdateGhostAI` | backend/internal/game/physics.go:191-238 | the ghost spawns, steers, is clamped, bounces and leaves as specified, nothing else changes |
| `PhysicsObject.Entities.SteerPhantom` | backend/internal/game/physics.go:240-270 | repelled, attracted or wandering, the ghost's velocity changes as specified |
| `PhysicsObject.Entities.ClampGhostVelocity` | backend/internal/game/physics.go:272-279 | the ghost's speed is limited as specified |
| `PhysicsObject.Entities.CheckGhostCollision` | backend/internal/game/physics.go:282-302 | a collision is reported for an active ghost inside the ellipse; then the balloon is knocked down and the ghost bounces off, else nothing changes |
| `PhysicsObject.Entities.ApplyTapForce` | backend/internal/game/physics.go:45-66 | effective exactly within 0.35; the impulse points from the finger to the balloon and has size 0.025 times 1 - d/0.35, upwards at the centre; out of range nothing changes |
| `PhysicsObject.Entities.Tap` | backend/internal/game/room_tick.go:281-287 | an effective tap pushes the balloon away from the finger and scares an active ghost exactly within 0.15; an ineffective one changes nothing |
| `PhysicsObject.Entities.Tick` | backend/internal/game/room_tick.go:137-158 | the tick's updates and checks in order, with the reason the game ends, are the specified tick and keep the entities within bounds until the ground is hit |
| `RoomInvariants.StepKeeps` | backend/internal/game/room.go:242-246 | every step keeps the aggregate invariant: capacity, distinct indexes below the next one, connections only of connected players, disconnection stamps, votes of current players and none during countdown and play, taps equal to scores up to 9999, safe nicknames (canonical ones if messages are valid UTF-8), and unique ones up to 97 seats |
| `RoomInvariants.RunKeeps` | backend/internal/game/room.go:242-246 | so does every run, and every run of valid UTF-8 messages keeps its strict form |
| `RoomInvariants.NewRoomOk` | backend/internal/game/room.go:293-321 | a new room satisfies the invariant |
| `RoomInvariants.MaterializeOkIff` | backend/internal/game/hub_cleanup.go:68-79 | for every saved game the restored room satisfies the invariant if and only if the save is consistent and fits the capacity |
| `RoomInvariants.ReliveKeeps` | backend/internal/game/hub_cleanup.go:68-86 | the invariant survives any number of save and restore cycles, each followed by any run |
| `RoomInvariants.NicknamesAreUnique` | backend/internal/game/room_lifecycle.go:157-183 | in every run of a new room of at most 97 seats usedNames is exactly the set of nicknames and no two players share one |
| `RoomInvariants.FreshInRoom` | backend/internal/game/state.go:79-94 | in a room of at most 97 seats the generator returns a name nobody has |
| `RoomInvariants.ChosenNameOk` | backend/internal/game/state.go:106-138 | a name chosen by a player is stored safe, canonical if the message was valid UTF-8, and new within that capacity |
| `RoomInvariants.JoinKeeps` | backend/internal/game/room_lifecycle.go:69-183 | joining, reconnecting and being turned away keep the invariant |
| `RoomInvariants.SetNicknameKeeps` | backend/internal/game/room_tick.go:306-353 | a nickname message keeps the invariant, and its strict form if it is valid UTF-8 |
| `RoomInvariants.AutoRestartKeeps` | backend/internal/game/room_lifecycle.go:482-516 | the automatic restart keeps the invariant |
| `RoomInvariants.SweepKeeps` | backend/internal/game/room_tick.go:229-239 | removing players whose grace period is over keeps the invariant |
| `RoomFlow.PhaseEdges` | backend/internal/game/room_lifecycle.go:298-409 | play is entered only from countdown, the end only from play, countdown only from waiting or the end |
| `RoomEdges.LeavesCycleIff` | backend/internal/game/room.go:244-244 | every step of every room leaves the documented cycle if and only if one of the guards holds: a join that finds somebody unready, a crash with nobody connected any more, a stale callback without connections, or a vote, callback, return or accepted nickname that restarts an ended room |
| `RoomEdges.JoinPhase` | backend/internal/game/room_lifecycle.go:69-149 | the guard for joins: the nickname gate, or a return that finds everybody ready after the end |
| `RoomEdges.TickPhase` | backend/internal/game/room_tick.go:121-158 | the guard for ticks |
| `RoomEdges.AlarmPhase` | backend/internal/game/room_lifecycle.go:482-516 | the guard for alarm callbacks, stale ones included |
| `RoomEdges.SayPhase` | backend/internal/game/room_tick.go:20-78 | the guard for messages: a unanimous vote, or an accepted nickname that leaves everybody ready |
| `RoomGames.GamesAreInterrupted` | backend/internal/game/room_lifecycle.go:224-244 | runs of a new room that go from countdown, and from play, back to waiting |
| `RoomGames.GamesRestart` | backend/internal/game/room_restart_voting.go:76-131 | a run of a new room that goes from ended to countdown |
| `RoomGames.LonePlayerLoses` | backend/internal/game/room_tick.go:121-158 | a run of a new room whose game ends by itself within 62 ticks |
| `RoomFlow.NeverStuck` | backend/internal/game/room_lifecycle.go:448-516 | in every run of a new room that is not closed, a countdown or ended phase has a current alarm that is armed, fired, or past its check having read that phase |
| `RoomFlow.CountdownCompletes` | backend/internal/game/room_lifecycle.go:320-345 | from a countdown that is not stuck at most three alarm steps reach play |
| `RoomGames.ReadyRoomPlays` | backend/internal/game/room_lifecycle.go:271-345 | a waiting room in which everybody connected is ready reaches play by its start delay and alarm alone |
| `RoomGames.LonePlayerPlays` | backend/internal/game/room_lifecycle.go:69-345 | from a new room: one player joins, keeps the offered name, and the sixth step launches the game |
| `RoomFlow.EndedMovesOn` | backend/internal/game/room_lifecycle.go:482-516 | from an ended game that is not stuck at most three alarm steps leave it or, if some but not all connected players voted, re-arm it |
| `RoomFlow.VoteRestartsIff` | backend/internal/game/room_restart_voting.go:15-73 | a restart vote restarts if and only if it makes the vote of the connected players unanimous; otherwise it is counted, and the first one arms the alarm |
| `RoomFlow.OneResultPerSession` | backend/internal/game/room_lifecycle.go:418-446 | in every run of a new or restored room each session enters play at most once and has its result recorded at most once |
| `RoomQuiet.StepRouses` | backend/internal/game/room_lifecycle.go:123-155 | every step of a room without alarm in countdown or after the end gives it one, or moves it on, if and only if it is one of the steps that wake it |
| `RoomQuiet.RestoredStuckIff` | backend/internal/game/hub_cleanup.go:68-79 | after any run that has not closed it, a room restored in countdown or after the end lacks an alarm if and only if no step of the run was one that wakes |
| `RoomQuiet.RestoredUnstuck` | backend/internal/game/hub_cleanup.go:68-79 | restored while waiting or playing, a room never lacks an alarm it needs |
| `RoomQuiet.ClosedMovesIff` | backend/internal/game/room_lifecycle.go:458-480 | timers can still change the phase of a closed room if and only if a callback past its check finds a countdown to end or a game to restart or abandon |
| `RoomQuiet.GhostStart` | backend/internal/game/room_lifecycle.go:458-480 | a run of a new room that is closed in countdown and starts playing nevertheless |
| `RoomScores.ScoreIsConserved` | backend/internal/game/room_tick.go:229-294 | in every run of a new room the balloon's score is the players' contributions plus those removed since the last reset plus taps accepted at the cap minus contributions held at that reset, and equals the taps accepted since |
| `RoomScores.ResultsAreAccounted` | backend/internal/game/room_lifecycle.go:418-446 | every result recorded in any run of a new room carries the taps accepted in that game as score, and rows whose contributions add up to it |
| `RoomScores.ScoreIsConservedFrom` | backend/internal/game/room_restart_voting.go:135-150 | the same for any room, restored ones included, from its first balance on |
| `RoomWorld.StepMoves` | backend/internal/game/room_tick.go:121-158 | every step leaves the world alone, renews it, launches, ticks or crashes it, or taps it |
| `RoomWorld.EntitiesAlwaysValid` | backend/internal/domain/game_state.go:26-73 | in every run of a new room all Validate checks pass, the ghost stays in its band within its speed, the repel timer within 0..30 and the wind within 0.503 |
| `RoomWorld.TaplessFall` | backend/internal/game/physics.go:11-42 | along any tapless stretch of play the balloon is within the free-fall bound of the ticks that passed |
| `RoomWorld.TaplessDrift` | backend/internal/game/physics.go:16-28 | along any tapless stretch of play the sideways speed stays within the larger of its start and 0.01006 |
| `RoomWorld.TaplessGamesEnd` | backend/internal/game/room_tick.go:137-158 | a launched game without taps survives fewer than 62 ticks |
| `RoomRate.SlidingWindow` | backend/internal/game/room_tick.go:50-63 | between restarts any interval of 60000 ms holds at most 200 dispatched messages of a player, and at most 199 once a window was opened |
| `RoomCooldowns.TapStartsCooldown` | backend/internal/domain/game_state.go:98-105 | an accepted tap was due; below the cap it scores once and sets the cooldown, at the cap it leaves the record alone |
| `RoomCooldowns.TapCountsIff` | backend/internal/game/room_tick.go:241-287 | a tap counts exactly when the game is on, the cooldown over, the finger on the screen and within reach; then the score grows by one |
| `RoomCooldowns.NoCooldownAtTheCap` | backend/internal/domain/game_state.go:98-105 | at the cap two taps are accepted at the same instant |
| `RoomCooldowns.NoTapDuringCooldown` | backend/internal/game/room_tick.go:258-266 | between restarts no run accepts a tap of a player before the cooldown ends |
| `RoomCooldowns.TapSpacing` | backend/internal/game/room_tick.go:241-294 | so after a scoring tap the next accepted one is at least the cooldown later |
| `RoomCooldowns.NoRenameDuringCooldown` | backend/internal/game/state.go:106-138 | between restarts no run changes a nickname again within thirty seconds |
| `RoomRate.Attains199` | backend/internal/game/room_tick.go:50-63 | a run with a forward clock, without restart, that dispatches 199 messages within such an interval |
| `RoomObject.MarkAllDisconnected` | backend/internal/game/hub_cleanup.go:73-77 | the loop marks every saved player disconnected and collects exactly their names |
| `RoomObject.CountRestartYesVotes` | backend/internal/game/room_restart_voting.go:169-179 | the loop counts the connected players and those of them who voted |
| `RoomObject.PruneVotes` | backend/internal/game/room_lifecycle.go:482-516 | exactly the votes of connected players remain |
| `RoomObject.CleanupDisconnectedPlayers` | backend/internal/game/room_restart_voting.go:135-150 | connected players stay with cleared statistics, the others go with their names |
| `RoomObject.SweepExpired` | backend/internal/game/room_tick.go:229-239 | exactly the players whose grace period is over go, with their names |
| `RoomObject.DropFlagged` | backend/internal/game/room.go:118-135 | flagged connections go; their players are marked only when the lock was taken |
| `RoomObject.Room.constructor` | backend/internal/game/room.go:293-321 | a new room is the first initial state of the machine, and valid |
| `RoomObject.Room.Materialize` | backend/internal/game/hub_cleanup.go:68-79 | a restored room is the second one, and valid exactly when the save is consistent and fits |
| `RoomObject.Room.AllConnectedPlayersReady` | backend/internal/game/room_lifecycle.go:252-269 | true exactly when somebody is connected and all connected players are ready |
| `RoomObject.Room.TryStartWhenAllReady` | backend/internal/game/room_lifecycle.go:271-295 | arms the start delay as the machine does, nothing else |
| `RoomObject.Room.StartGame` | backend/internal/game/room_lifecycle.go:298-318 | takes the room where the machine's step does |
| `RoomObject.Room.HandleCountdownEnd` | backend/internal/game/room_lifecycle.go:320-345 | takes the room where the machine's step does |
| `RoomObject.Room.EndGameWithReason` | backend/internal/game/room_lifecycle.go:387-409 | takes the room where the machine's step does |
| `RoomObject.Room.RestartAndStart` | backend/internal/game/room_restart_voting.go:76-131 | takes the room where the machine's step does |
| `RoomObject.Room.HandleAutoRestart` | backend/internal/game/room_lifecycle.go:482-516 | takes the room where the machine's step does |
| `RoomObject.Room.TriggerAutoRestartIfEnded` | backend/internal/game/room_tick.go:359-367 | takes the room where the machine's step does |
| `RoomObject.Room.NormalizePhaseForNicknameGate` | backend/internal/game/room_lifecycle.go:224-244 | takes the room where the machine's step does |
| `RoomObject.Room.AddNewPlayer` | backend/internal/game/room_lifecycle.go:157-183 | takes the room where the machine's step does |
| `RoomObject.Room.ReconnectPlayer` | backend/internal/game/room_lifecycle.go:123-155 | takes the room where the machine's step does |
| `RoomObject.Room.HandleJoin` | backend/internal/game/room_lifecycle.go:69-111 | takes the room where the machine's step does, and reports a full room exactly for a newcomer at capacity, keeping the room valid |
| `RoomObject.Room.HandleDisconnect` | backend/internal/game/room_lifecycle.go:201-222 | takes the room where the machine's step does: the player is unlinked and stamped with the time of leaving, keeping the room valid |
| `RoomGrace.LeaverIsKept` | backend/internal/game/room_tick.go:229-239 | a confirmed player who leaves at T keeps seat, name and score through every run up to T + 30000 that has no restart |
| `RoomGrace.LeaverIsRemoved` | backend/internal/game/room_tick.go:229-239 | and is gone after any later tick, until joining again |
| `RoomGrace.LeaverReturns` | backend/internal/game/room_lifecycle.go:123-149 | coming back in time restores the same index, nickname and score |
| `RoomLaws.NewcomerIsSeated` | backend/internal/game/room_lifecycle.go:157-183 | a newcomer gets the next seat and its colour, nothing scored, a name to confirm and a timer, and nobody else changes |
| `RoomLaws.NewcomerNameIsNew` | backend/internal/game/room_lifecycle.go:157-183 | up to 97 seats that name is nobody's |
| `RoomLaws.FullRoomRefuses` | backend/internal/game/room_lifecycle.go:69-111 | a full room turns a newcomer away and stays as it is |
| `RoomLaws.RestartKeepsConnected` | backend/internal/game/room_restart_voting.go:76-167 | a restart keeps exactly the connected players, in their seats and under their names, with nothing scored, and frees the other names |
| `RoomLaws.TimeoutRemoves` | backend/internal/game/room_lifecycle.go:19-51 | the nickname timer removes a player who has not confirmed, with name, vote and link, and nobody else |
| `RoomLaws.LimitCutsOff` | backend/internal/game/room_tick.go:50-63 | after a hundred messages in a window the next one is not dispatched and cuts the connection |
| `RoomLaws.LeavingIsStamped` | backend/internal/game/room_lifecycle.go:201-222 | who leaves is unlinked, stamped with the time and no longer asked for a name, and nobody else changes |
| `RoomLaws.CutOffIsStamped` | backend/internal/game/room.go:118-135 | so is who is cut off with the lock held; without it only the link goes |
| `RoomLaws.RestoredIsStamped` | backend/internal/game/hub_cleanup.go:68-79 | a restored player is stamped with the time of restoring, the record otherwise intact |
| `RoomLaws.NicknameIsGrantedIff` | backend/internal/game/room_tick.go:306-353 | before a game has ended, exactly when a nickname is granted, replaced, confirmed or refused |
| `RoomLaws.StaleAlarmIsDropped` | backend/internal/game/room_lifecycle.go:462-469 | a callback goes on exactly if its version is current, the room open and the phase a countdown or an end |
| `RoomLaws.TickerStopsWithTheGame` | backend/internal/game/room_tick.go:121-158 | a tick that ends the game or finds nobody connected stops the ticker, any other leaves it |
| `RoomLaws.TickerServesTheGame` | backend/internal/game/room_lifecycle.go:224-250 | after a join or return a running game has its ticker; a join that stops the game stops ticker, alarm and start delay |
| `RoomLaws.ReadinessStartsDelay` | backend/internal/game/room_lifecycle.go:271-295 | after a return, an accepted nickname or a kick, a waiting room with everybody ready has its start delay running |
| `RoomLaws.CountdownsBeginFresh` | backend/internal/game/room_lifecycle.go:298-318 | every step that begins a countdown stamps it, arms a new alarm, takes a new session and starts from a fresh world without votes |
| `RoomLaws.EndIsRecorded` | backend/internal/game/room_lifecycle.go:418-446 | a tick that ends a game with store and session logs its result with the final score and players |
| `RoomLaws.VotesArePruned` | backend/internal/game/room_lifecycle.go:482-491 | a deferred automatic restart keeps exactly the votes of connected players |
| `RoomObject.Room.HandleNicknameTimeout` | backend/internal/game/room_lifecycle.go:19-51 | takes the room where the machine's step does, keeping the room valid |
| `RoomObject.Room.HandleStartDelay` | backend/internal/game/room_lifecycle.go:271-295 | takes the room where the machine's step does, keeping the room valid |
| `RoomObject.Room.HandleTap` | backend/internal/game/room_tick.go:241-294 | takes the room where the machine's step does, and says whether the tap counted |
| `RoomObject.Room.HandleSetNickname` | backend/internal/game/room_tick.go:306-353 | takes the room where the machine's step does |
| `RoomObject.Room.HandleRestartVote` | backend/internal/game/room_restart_voting.go:15-73 | takes the room where the machine's step does |
| `RoomObject.Room.HandleMessage` | backend/internal/game/room_tick.go:20-78 | rate limit and dispatch take the room where the machine's step does, keeping the room valid |
| `RoomObject.Room.CleanupDisconnected` | backend/internal/game/room_tick.go:229-239 | takes the room where the machine's step does |
| `RoomObject.Room.Tick` | backend/internal/game/room_tick.go:121-158 | takes the room where the machine's step does, keeping the room valid |
| `RoomObject.Room.RemovePendingDisconnects` | backend/internal/game/room.go:118-135 | with the lock it marks and removes, without it it only removes connections, keeping the room valid |
| `RoomObject.Room.AlarmChecks` | backend/internal/game/room_lifecycle.go:462-471 | the callback's first section goes on only with the current version in an open room and remembers the phase it read, keeping the room valid |
| `RoomObject.Room.AlarmActs` | backend/internal/game/room_lifecycle.go:472-480 | the callback's second section acts on the remembered phase, keeping the room valid |
| `RoomObject.Room.Close` | backend/internal/game/room.go:328-365 | afterwards the room is closed, valid, without ticker, timers, armed alarm or connections, and the game state and the callbacks past their check are as before |
| `RoomObject.Room.Perform` | backend/internal/game/room.go:242-246 | one call of a handler is one step of the machine and keeps the room valid |
| `RoomObject.Room.PerformAll` | backend/internal/game/room.go:242-246 | every run of the object is a run of the machine, so what is proved of runs holds of it |
| `Utf8.DecodeEncoded` | frontend/src/game/message_codec.ts:120-146 | decoding the UTF-8 of any text gives the text back |
| `Utf8.SampleEncodings` | backend/internal/protocol/encode.go:145-150 | one encoding of each length |
| `Utf8.TextOfEncoded` | frontend/src/game/message_codec.ts:120-146 | TextDecoder returns the text, minus a leading byte order mark |
| `SnapshotCodec.SizeIsExact` | backend/internal/protocol/encode.go:76-94 | the encoded length is exactly the precalculated one |
| `SnapshotCodec.CalcSnapshotSize` | backend/internal/protocol/encode.go:76-94 | the loop computes that size |
| `SnapshotCodec.EncodePlayers` | backend/internal/protocol/encode.go:139-152 | panics exactly when some nickname exceeds 255 bytes, else appends all entries in order |
| `SnapshotCodec.EncodeRipples` | backend/internal/protocol/encode.go:155-161 | appends all ripples in order |
| `SnapshotCodec.EncodeSnapshot` | backend/internal/protocol/encode.go:29-73 | panics exactly when a count or a nickname exceeds 255, else writes the specified layout |
| `SnapshotCodec.EncodePlayerJoin` | backend/internal/protocol/encode.go:245-262 | panics exactly when the nickname exceeds 255 bytes, else every field can be read back at its offset |
| `SnapshotCodec.DecodePlayers` | frontend/src/game/message_codec.ts:120-146 | the advancing-offset loop reads the specified players without reading past the end |
| `SnapshotCodec.DecodeSnapshot` | frontend/src/game/message_codec.ts:148-201 | the whole decoder, on arbitrary bytes, is the specified one and never reads past the end |
| `SnapshotCodec.DecodeAnything` | frontend/src/game/message_codec.ts:70-201 | arbitrary bytes are rejected exactly when shorter than 37; lists never exceed their counts or the bytes that pay for them, names never 12 code points |
| `SnapshotCodec.RoundTrip` | frontend/src/game/message_codec.ts:70-201 | for every snapshot the encoder accepts the client decodes the same data, except that it rejects exactly the bare snapshot |
| `SnapshotCodec.FixedLayout` | backend/internal/protocol/encode.go:20-45 | message type, tick, score, phase code and balloon stand at the documented offsets, little-endian |
| `SnapshotCodec.EntryLayout` | backend/internal/protocol/encode.go:139-152 | so do the fields of a player's entry |
| `SnapshotCodec.GhostLayout` | backend/internal/protocol/encode.go:127-136 | so do flag, position and repel timer of the ghost |
| `SnapshotCodec.RippleLayout` | backend/internal/protocol/encode.go:155-161 | so do the fields of a ripple |
| `SnapshotCodec.BareIffShort` | frontend/src/game/message_codec.ts:148-151 | the rejected snapshot is the one of 34 bytes: no players, no ripples, nobody active |
| `SnapshotCodec.NicknameSurvivesIff` | frontend/src/game/message_codec.ts:18-22 | a nickname of at most 12 code points comes back unchanged if and only if it does not start with U+FEFF |
| `RoomSnapshots.StoredNameShown` | backend/internal/protocol/encode.go:145-150 | a stored nickname takes at most 48 bytes and is shown exactly as stored if and only if it does not start with U+FEFF |
| `RoomSnapshots.ExtractSnapshot` | backend/internal/game/room.go:184-227 | the loop lists every connected player exactly once, with the specified fields |
| `RoomSnapshots.ClientsSeeTheRoom` | backend/internal/game/room.go:230-232 | in a consistent room of at most 255 seats encoding does not panic and the client shows phase, entities, nicknames up to a leading byte order mark, scores and remaining cooldowns, unless there is nothing to show |
| `RoomSnapshots.EveryRunIsShown` | backend/internal/game/room.go:235-238 | the same in every run of a new room, whatever bytes its messages carry |
| `RoomSnapshots.ValidRunsShowNames` | backend/internal/game/room_tick.go:306-353 | in every run whose nickname messages are valid UTF-8 all nicknames are shown exactly as stored |
| `RoomSnapshots.MarkIsNotShown` | backend/internal/game/room_tick.go:306-353 | a run of a new room that stores a nickname which is shown otherwise |
| `RefreshTokens.StepKeeps` | backend/internal/auth/token_lifecycle.go:59-228 | every command of every interleaved session keeps tokens, markers and index in agreement with the history of commands |
| `RefreshTokens.AnswersMatchHistory` | backend/internal/auth/token_lifecycle.go:80-92 | in every run a presented token gets exactly the answer its own history of issue, use and revocation deserves |
| `RefreshTokens.LiveTokensAreListed` | backend/internal/auth/token_lifecycle.go:105-128 | in every run each live token is in its owner's set, which expires no earlier |
| `RefreshTokens.RevokeAllIsExact` | backend/internal/auth/token_lifecycle.go:59-68 | right after RevokeAllForUser the user has no live token and an empty set, and nobody else lost a token or a set |
| `RefreshTokens.SingleUse` | backend/internal/auth/token_lifecycle.go:80-92 | in every run a token is reported valid at most once |
| `RefreshTokens.ReuseIsReported` | backend/internal/auth/token_lifecycle.go:80-92 | after a valid report every later attempt reports reuse by the same user while the marker lives, and an unknown token afterwards |
| `RefreshTokens.RefreshRotates` | backend/internal/auth/auth.go:359-394 | for every token, user id, lookup and signer: success exactly for a valid token of a nonempty id whose user is found and whose access token is signed; only then is the new token live; a valid token is spent in every case; reuse ends all live tokens of the user; everything else stays |
| `RefreshTokens.RefreshTokenManager.GenerateToken` | backend/internal/auth/token_lifecycle.go:105-128 | token, membership and expiry are stored together as specified |
| `RefreshTokens.RefreshTokenManager.ConsumeRefreshToken` | backend/internal/auth/token_lifecycle.go:139-180 | the store changes as the script says; accepted, reused and failed are told apart, an empty user id fails |
| `RefreshTokens.UnlistKeeps` | backend/internal/auth/token_lifecycle.go:184-187 | removing a spent token from any set keeps tokens, markers and index in agreement with the history |
| `RefreshTokens.RevokeKeeps` | backend/internal/auth/token_lifecycle.go:205-208 | so does revoking one token, recorded as such |
| `RefreshTokens.RefreshTokenManager.RevokeAllForUser` | backend/internal/auth/token_lifecycle.go:213-228 | the script's loop deletes exactly the members' keys and the set, and counts them |
| `RefreshTokens.RefreshTokenManager.RefreshSession` | backend/internal/auth/auth.go:359-394 | succeeds exactly for a live token with nonempty user id, user found and signer answering; brings no other token to life; leaves the presented one dead |
| `PersistLoop.StepKeeps` | backend/internal/game/room_persist.go:52-177 | every event keeps the loop invariant, stale timer values included |
| `PersistLoop.PendingIsArmed` | backend/internal/game/room_persist.go:83-101 | under every schedule a job is pending exactly when the loop listens to a timer that runs or has fired |
| `PersistLoop.WritesFollowAcceptance` | backend/internal/game/room_persist.go:71-103 | attempted writes are a subsequence of accepted jobs in order, and no final job taken is skipped |
| `PersistLoop.AcceptedAreCalls` | backend/internal/game/room_persist.go:130-170 | the accepted jobs of every run are those of the calls that found room, in order: saves never final, flushes always |
| `PersistLoop.FinalsAreFlushes` | backend/internal/game/room_persist.go:151-170 | the final jobs of every run are those of its flushSync calls, in order |
| `PersistLoop.BurstStep` | backend/internal/game/room_persist.go:83-101 | without flush or stop only a wake-up writes, and it writes the last job taken; a received save is pending with the timer restarted |
| `PersistLoop.BurstWritesOncePerWake` | backend/internal/game/room_persist.go:83-101 | a burst of saves is coalesced: at most one write per wake-up, none without one |
| `PersistLoop.LastJobIsWritten` | backend/internal/game/room_persist.go:73-77 | when the loop has exited the last accepted job was attempted after all others |
| `PersistLoop.ClosedLoopDrains` | backend/internal/game/room_persist.go:73-77 | a closed loop exits after one receive per queued job and one more |
| `PersistLoop.QuietLoopSaves` | backend/internal/game/room_persist.go:99-101 | with an empty queue the timer firing and the loop waking settle everything accepted |
| `PersistLoop.PersistManager.EnqueuePersist` | backend/internal/game/room_persist.go:130-149 | queues a job that is not final if there is room, else drops it; writes nothing |
| `PersistLoop.PersistManager.FlushSync` | backend/internal/game/room_persist.go:151-170 | queues a final job if there is room |
| `PersistLoop.PersistManager.Stop` | backend/internal/game/room_persist.go:172-177 | closes the channel, or prevents the loop from ever starting |
| `PersistLoop.PersistManager.FlushPending` | backend/internal/game/room_persist.go:58-69 | writes the pending job and stops the timer |
| `PersistLoop.PersistManager.Receive` | backend/internal/game/room_persist.go:73-98 | one receive, with the timer's stop, drain and reset, is the specified step |
| `PersistLoop.PersistManager.Wake` | backend/internal/game/room_persist.go:99-101 | one timer wake-up is the specified step |
| `EmailStream.AtoiOfItoa` | backend/internal/worker/retry.go:48-55 | a retry count reads back as it was written |
| `EmailStream.StepKeeps` | backend/internal/worker/email_worker.go:170-261 | every command of every worker keeps each email covered, and whoever is about to acknowledge leaves a later entry or an outcome behind |
| `EmailStream.AtLeastOnce` | backend/internal/worker/retry.go:31-130 | in every run, crashes and failing commands included, each well-formed email is sent, dead-lettered, still unacknowledged, or was dropped by a permanent failure whose dead-letter add failed |
| `EmailStream.AtLeastOnceWhenCareful` | backend/internal/worker/email_worker.go:225-261 | in runs without that one event the exception does not exist |
| `EmailStream.CarelessLosesMail` | backend/internal/worker/email_worker.go:231-254 | a run in which that event loses an email |
| `EmailStream.RetriesAreBounded` | backend/internal/worker/retry.go:39-55 | no entry added by a worker counts more than five retries, and an email queued without a count is given up only after six failed attempts |
| `EmailStream.OutcomesAreEarned` | backend/internal/worker/email_worker.go:198-261 | in every run an email is sent only after a delivery, refused or dropped only after a permanent failure, given up only after six transient ones |
| `EmailStream.NoKeyLeavesMail` | backend/internal/worker/email_worker.go:198-207 | without an API key the stream is unchanged and the email stays offered |
| `EmailStream.CopyIsNext` | backend/internal/worker/retry.go:114-129 | below five retries a transient failure leaves a next entry with the same email and one more retry, and acknowledges the old one |
| `EmailStream.FailingMailIsGivenUp` | backend/internal/worker/retry.go:39-44 | an email that fails every time is dead-lettered after at most six attempts |
| `EmailStream.EmailWorker.Reenqueue` | backend/internal/worker/retry.go:92-130 | a negative count panics; else the copy carries the incremented count, and only a confirmed add allows the acknowledgement |
| `EmailStream.LetterKeeps` | backend/internal/worker/retry.go:59-86 | adding a dead letter, whatever Redis answers, leaves every email covered and allows an acknowledgement only then |
| `EmailStream.NegativeCountPanics` | backend/internal/worker/retry.go:101-105 | after a transient failure an entry with a negative count is neither copied, buried nor acknowledged |
| `EmailStream.EmailWorker.HandleTransientFailure` | backend/internal/worker/email_worker.go:256-260 | a panic on a negative count, else retry or dead letter by count, then acknowledgement |
| `EmailStream.EmailWorker.HandlePermanentFailure` | backend/internal/worker/email_worker.go:231-254 | dead letter, then acknowledgement whether or not it was added |
| `EmailStream.EmailWorker.ProcessMessage` | backend/internal/worker/email_worker.go:170-223 | one undisturbed call is the take, send, add and acknowledge steps of the machine; each outcome needs its own reply, no key changes nothing, and an acknowledged email has an outcome or a copy |
| `LobbyPages.CursorRoundTripIff` | backend/internal/store/game_repository.go:179-227 | a printed cursor parses back to its row's key if and only if the time is positive and the code nonempty |
| `LobbyPages.BareCodeIsMalformed` | backend/internal/store/game_repository.go:179-187 | a nonempty cursor without separator is refused |
| `LobbyPages.ListingElements` | backend/internal/store/game_repository.go:164-176 | the listing is a permutation of the table |
| `LobbyPages.ListingDescends` | backend/internal/store/game_repository.go:164-176 | it is strictly descending by time and code, for every collation |
| `LobbyPages.ListingIsNewestFirst` | backend/internal/store/game_repository.go:164-176 | later updates come first, and of equal times the larger code |
| `LobbyPages.FirstPageSize` | backend/internal/store/game_repository.go:94-100 | a page has as many rows as asked for, 50 if none were, at most 100 |
| `LobbyPages.NextPage` | backend/internal/store/game_repository.go:164-227 | the cursor printed for a row leads to the page that starts right after it |
| `LobbyPages.FollowCursors` | backend/internal/store/game_repository.go:94-128 | following NextCursor terminates, yields every row exactly once in order, and takes as many pages as the limit needs |
| `LobbyPages.LoadAllActiveLobbies` | backend/internal/store/game_repository.go:94-128 | a malformed cursor is an error, otherwise the page is the specified one with the clamped limit |
| `LobbyPages.RestorePages` | backend/internal/game/hub_cleanup.go:20-62 | restoring visits the newest 100 lobbies and succeeds if and only if there are fewer than 100 |

## Left out

- HTTP handlers, middleware, configuration, metrics, audit and telemetry: plumbing or one-branch facts.
- JWT signing, password hashing and encryption: library cryptography; new tokens and UUIDs are assumed distinct from earlier ones.
- The tokens a client may present are the values generateSecureToken yields, so the three Redis key spaces do not overlap.
- Rounding: float64 arithmetic is real arithmetic, and NaN does not occur.
- CalculateCooldown: its logarithm is replaced by an arbitrary nonnegative cooldown per tap.
- Player indexes beyond 65535 and tick counts or scores beyond 32 bits are narrowed in snapshots by wrapping; nothing is claimed about them.
- Nickname timers and start-delay callbacks may run at any time, which includes more runs than the timers produce; nothing is claimed about how soon they run.
- Liveness of the ticker goroutine: ticks are steps the environment takes.
- Timestamps that only feed records (createdAt, startedAt) and the contents of database rows.
- Serialization of saved games: a save is the game state itself.
- RoomRate.SlidingWindow: covers one player record between restarts, because a restart clears the counters.
- RoomObject.Room.Close: sets the closed flag together with the first locked section, although the source sets it just before.
- RoomQuiet.ClosedMovesIff: speaks of timers and their callbacks; joins, messages and ticks that arrive after closing are not barred by the room itself.
- Stream trimming by MaxLen: an entry trimmed while unacknowledged would be lost, which is outside the model.
- EmailStream.AtLeastOnce: names the dropped emails as an exception, because the code drops them; the exact event is given beside it.
- PersistLoop.WritesFollowAcceptance: speaks of the order of acceptance, not of serialization, because states are serialized before they are queued.
- LobbyPages.RestorePages: requires codes without a bar, as generated room codes are.
- The total row estimate of a lobby page, shouldLocalMaterializeRoom and hub caches.
- OutboundManager, WebSocket pumps and limiters, client interface, rendering and interpolation.
- The other message encoders and decoders (taps, phase changes, restart status, client messages): fixed layouts that would only add easy members.
