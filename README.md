# Arctic rescue: a verified model of the game core

Arctic is a browser game on a 10 × 12 grid. A boat starts on row 10, just
above the continent (row 11). It sails to the north pole (row 0), takes a
polar bear aboard and brings it back. A round lasts 60 seconds, and icebergs
drift across the middle rows. There are three modes:

- `single`: one boat;
- `local2`: two boats on one device;
- `online2`: the host simulates both boats, and the guest mirrors the
  host's snapshot and sends back its direction.

This project models the simulation core of `arctic.js` in Dafny:

- direction input and the keyboard mapping;
- the per-boat movement gate (a new direction is latched first, then at most
  one step per 200 ms);
- the grid step, with its pole and continent events;
- the pickup and drop-off of bears;
- the icebergs: drift, spawn, cap and collisions;
- the round clock: timer, pause and resume, and the `m:ss` display;
- round start and reset;
- the per-frame `updateGame` tick;
- the state snapshot the host publishes (`buildNetState`) and its
  application on the guest (`applyNetState`);
- the host's decoding of the guest's input.

Modules:

- `Options`, `Decimal` and `Json` provide the vocabulary. `Json` covers
  JSON-like payloads, JavaScript property access, truthiness and `Number()`.
- `Movement`, `Icebergs`, `RoundClock`, `Keys`, `World` and `Replication` give
  the behaviour as pure functions on values, with the lemmas about them.
  `World.Snapshot` is the whole replicated state. `World.Update` is one tick.
  `World.Start` is `startGame`.
- `Arctic.Session` is a class whose fields are the script's module-level
  state. It has one method per state-changing function of the core, written step by step
  as the script does it. Each method's `ensures` ties the new state to the
  pure model, for example `Exported() == Update(old(Exported()), …)`. The
  lemmas about the pure model then hold for the class as well.

Three kinds of input are parameters:

- `Date.now()` is a `now` parameter.
- The two `Math.random()` draws of `spawnIceberg` are the `row` and `variant`
  parameters. Preconditions hold them to the ranges the draws produce: rows
  2..9 and variants 0..2.
- What the remote store returns is a `JsonValue` parameter.

Where the behaviour looks surprising, the model follows the code as written:

- A collision does not reset `lastStepDx`/`lastStepDy`.
- The two-player collision loop has no `break`.
- A boat never enters row 0 or row 11. Moving on from row 1 or row 10 fires
  the pole or continent event instead.
- A boat needs nine steps up from the spawn row to reach row 1, and a tenth
  step to board the bear. `Movement.RescueTrip` states both.
- `onlineGuestJoined` is never declared in the script. Every read of it is
  guarded by `onlineIsHost`, which is set together with
  `onlineGuestJoined = false`, so the model starts it at `false`.

## Model

| member | source | states |
|---|---|---|
| Decimal.NatToString | arctic.js:1152-1153 | `String(n)` of a natural number is a non-empty string of decimal digits, one digit exactly when n < 10 and at most two when n < 100 |
| Decimal.NatToStringRoundTrip | arctic.js:1152-1153 | reading the digits of `String(n)` back gives n |
| Json.Truthy | arctic.js:621-623 | a block the script skips with `if (v)` has no properties at all, and an object is never skipped |
| Json.DigitsReadBack | arctic.js:742-744 | `Number()` of a string of decimal digits is their value |
| Json.NegatedDigitsReadBack | arctic.js:742-744 | `Number()` of a minus sign followed by decimal digits is the negated value |
| Json.IntToStringReadsBack | arctic.js:742-744 | `Number()` of the decimal text of any integer, sign included, is that integer |
| Keys.DirectionFromAnyKey | arctic.js:1642-1667 | a direction is returned exactly when the WASD code or the arrow key names one, and it is always one of the four unit steps |
| Keys.DirectionAgreesWithTables | arctic.js:1642-1667 | with only a WASD code, or only an arrow key, or both naming the same direction, the combined mapping returns that table's direction |
| Json.StringToNumber | arctic.js:743-744 | the model's reading of `Number()` on a string: a blank string is 0, a string whose last non-blank character is not a digit gives None in the model (NaN for most such strings, but see Left out), and a negative result comes only from a leading minus sign |
| Json.ToNumber | arctic.js:743-744 | `Number()` of `undefined` or an object is NaN, of a number is itself, of an array of two or more elements is NaN, and of a one-number array is that number |
| Json.NumberOrZero | arctic.js:743-744 | `Number(v) \|\| 0` is 0 for NaN and `undefined`, and a number is kept |
| Movement.SetDesired | arctic.js:1465-1495 | the boat wants the given direction and faces it when it is nonzero, its facing is kept for (0, 0), and position, cargo, score and step latch stay |
| Movement.ClearDesired | arctic.js:1474-1477 | clearing is setting (0, 0), and a cleared boat no longer moves on any tick |
| Movement.ReachPole | arctic.js:1244-1248 | after reaching the pole a bear is aboard, a boat already carrying one is unchanged, and nothing but the cargo changes |
| Movement.ReachContinent | arctic.js:1250-1255 | after reaching the continent no bear is aboard, the rescue count grows by one exactly when one was, and nothing else changes |
| Movement.Fresh | arctic.js:363-393 | the reset boat stands on its spawn cell in row 10, on the board for an on-board column, facing up, with no bear and no rescues, and no tick moves it; `Session.ResetSingleState` and `Session.ResetLocal2State` are stated in terms of it |
| Movement.Move | arctic.js:1280-1299 | a step keeps a boat on the board and the water rows 1..10; the column moves by dx exactly when that stays on the board; the row moves one up when dy < 0 below row 1, one down when dy > 0 above row 10, not at all when dy is 0, and otherwise by at most one toward dy; the controls stay |
| Movement.Tick | arctic.js:1301-1315 | a tick never changes the boat's desires or facing, leaves a nonzero desire latched, and stamps the tick time whenever the boat moved |
| Movement.PickupDropoff | arctic.js:1244-1277 | a bear is boarded exactly when moving up from row 1 without one, landed exactly when moving down from row 10 with one, and the rescue count changes only then, by one |
| Movement.MovementGate | arctic.js:1301-1315 | no desired direction: nothing changes; a new direction is only latched, with the time; a latched direction steps once MOVE_DELAY has passed, and restarts the wait; otherwise position, cargo and score stay |
| Movement.TickScore | arctic.js:1339-1381 | one movement tick adds at most one rescue |
| Movement.TickInBounds | arctic.js:1339-1381 | one movement tick keeps a boat on the water rows |
| Movement.StepsAreSpaced | arctic.js:1311-1314 | over any run of ticks at non-decreasing times, accepted steps are at least 200 ms apart, and the first is at least 200 ms after the last latch or step |
| Movement.SettleDelay | arctic.js:1304-1309 | after a change of direction, no step goes through within 200 ms of the tick that latched it, and exactly then one is due |
| Movement.SailUp | arctic.js:1286-1291 | k upward steps below row 1 + k lower the row by k and change nothing else |
| Movement.SailDown | arctic.js:1292-1297 | k downward steps that stay above the continent raise the row by k and change nothing else |
| Movement.StepsSplit | arctic.js:1280-1299 | k + m steps are k steps followed by m steps |
| Movement.StepsLast | arctic.js:1280-1299 | k + 1 steps are one more move after k steps |
| Movement.BoardAtPole | arctic.js:1286-1291 | moving up from row 1 without a bear boards one and leaves everything else as it was |
| Movement.LandAtContinent | arctic.js:1292-1297 | moving down from row 10 with a bear lands it, counts one rescue and leaves everything else as it was |
| Movement.SailToPole | arctic.js:1286-1291 | from the spawn row without a bear, nine steps up reach row 1 and the tenth boards a bear there |
| Movement.SailHome | arctic.js:1292-1297 | from row 1 with a bear, nine steps down reach row 10 and the tenth lands the bear there, one more rescue |
| Movement.RescueTrip | arctic.js:1280-1299 | from the spawn row, nine steps up reach row 1 and the tenth boards a bear; nine steps down return to row 10 and the tenth lands it, one more rescue |
| Movement.CollideResets | arctic.js:1446-1462 | a collision drops the bear, sends the boat to its spawn cell facing up and stopped, keeps the score and the step latch, and a second one changes nothing more |
| Movement.Collide | arctic.js:1446-1462 | after a collision the boat is on the water rows when its spawn column is on the board, stays put on every later tick, has no bear and keeps its score |
| Icebergs.Shifted | arctic.js:1407-1409 | every iceberg moves one column to the right, in order, and none is added or lost |
| Icebergs.Advanced | arctic.js:1406-1411 | a move never adds icebergs and leaves only icebergs on the board; `Session.MoveIcebergs` is proved equal to it, and `AdvancedMembers` gives its exact members |
| Icebergs.OnBoard | arctic.js:1410 | the filter keeps exactly the icebergs with a column on the board, and never adds any |
| Icebergs.OnBoardConcat | arctic.js:1410 | the filter keeps order: filtering a concatenation filters each part in place |
| Icebergs.AdvancedMembers | arctic.js:1406-1411 | after a move an iceberg is afloat exactly when it was afloat one column further left and its new column is on the board |
| Icebergs.AdvancedWellformed | arctic.js:1406-1411 | a move keeps at most ICEBERG_MAX_COUNT icebergs, all within rows 2..9, the board's columns and the three variants |
| Icebergs.ResolveInBounds | arctic.js:1423-1443 | the collision outcome of a boat keeps it on the water rows and keeps its score |
| Icebergs.Resolve | arctic.js:1423-1462 | a boat on no iceberg's cell is untouched; a boat on one loses its bear, returns to its spawn cell and stops; the score always stays |
| RoundClock.DisplayRemaining | arctic.js:1157-1170 | the displayed remaining time is never negative, is the full 60 s before any start, is the true remaining time while some of it is left, and 0 once none is |
| RoundClock.Remaining | arctic.js:1131-1138 | the remaining time is the round length less the time since the start outside pauses, counted up to now or to the pause instant, and the full round at the start |
| RoundClock.PauseRound | arctic.js:1827-1830 | a pause records its instant and, from a running clock, freezes the remaining time at its value then; the round start and the pause total stay |
| RoundClock.ResumeRound | arctic.js:1831-1837 | resuming leaves nothing paused, does not move the remaining time at the instant of resuming, and on a clock that was not paused changes no reading |
| RoundClock.PausedClockIsFrozen | arctic.js:1131-1138 | while a pause instant is recorded the remaining time is the same at every moment |
| RoundClock.RunningClockCountsDown | arctic.js:1131-1138 | without a pause the remaining time falls by exactly the time that passes |
| RoundClock.PauseResume | arctic.js:1826-1836 | a pause freezes the remaining time at its value at the pause; after resuming, the clock reads as if the paused span never happened, and nothing is left paused |
| RoundClock.PadStart | arctic.js:1152-1153 | `padStart` yields at least the width, ends with the original text and is filled in front |
| RoundClock.ClockText | arctic.js:1150-1154 | the display is at least four characters with a colon before the last two, and reads back as minutes × 60 + seconds |
| RoundClock.WholeSeconds | arctic.js:1149 | whole seconds, floored, and zero for anything below one second, negative times included |
| RoundClock.FormatTime | arctic.js:1148-1155 | the display always has a colon followed by exactly two characters |
| RoundClock.TwoDigitsValue | arctic.js:1153 | seconds below 60, padded to two characters, are two digits reading back as the same number |
| RoundClock.ClockSecondsOfSlices | arctic.js:1154 | a text whose parts before and after the colon are digit strings reads back from the values of those parts |
| RoundClock.ClockSecondsOfParts | arctic.js:1154 | digits, a colon and two digits read back as minutes × 60 + seconds, from the values of the two digit strings |
| RoundClock.SecondsReadBack | arctic.js:1150-1151 | splitting a whole number of seconds into minutes and seconds and displaying them reads back as that number |
| RoundClock.FormatTimeReadsBack | arctic.js:1148-1155 | the display of any time reads back as its whole seconds, clamped at zero: the display loses nothing but the fraction |
| RoundClock.FormatTimeClampsToZero | arctic.js:1149 | anything under one second, negative times included, shows as `0:00` |
| World.InitialValid | arctic.js:254-322 | the state on page load has every boat on the water rows and no icebergs |
| World.Initial | arctic.js:254-322 | the page-load state is in single mode with no round running and no icebergs, and its boat does not move; `Session.constructor` is stated in terms of it |
| World.TimerStep | arctic.js:1131-1146 | with time left nothing changes; otherwise the round is over and every boat's desired direction is cleared; mode, icebergs, positions and scores stay |
| World.MovementStep | arctic.js:463-469 | the movement step touches only the boats of the mode being played: the round, the icebergs and their timers stay, and the other mode's boats are untouched; it is the movement part of `World.Update`, which `Session.UpdateGame` is proved equal to |
| World.CollisionStep | arctic.js:1423-1443 | the collision check touches only the boats of the mode being played: the round, the icebergs and their timers stay, and the other mode's boats are untouched; `Session.CheckCollisionsWithIcebergs` is proved equal to it |
| World.MoveStep | arctic.js:1390-1393 | only the iceberg list and its move timer change, the list never grows, and the timer is kept or set to now |
| World.SpawnStep | arctic.js:1395-1401 | only the iceberg list and its spawn timer change, the old list is kept as a prefix with at most one iceberg added, and the cap is never exceeded |
| World.IcebergStep | arctic.js:1389-1404 | handling icebergs keeps the mode, the round state and every score, and adds at most one iceberg |
| World.Update | arctic.js:453-473 | for a guest or a round not running nothing changes; the mode is always kept and at most one iceberg is added |
| World.Start | arctic.js:395-408 | a started round runs with no icebergs and the same mode, and a valid state stays valid |
| World.UpdateGated | arctic.js:453-461 | for an online guest, or a round not started, over or paused, a tick changes nothing |
| World.UpdatePreservesValid | arctic.js:453-473 | a tick keeps every boat on the water rows and the icebergs within cap, band and variants, given spawn draws in range |
| World.IcebergSteps | arctic.js:1389-1404 | once ICEBERG_MOVE_DELAY has passed the icebergs advance and the move timer is set to now, and before that nothing changes; once ICEBERG_SPAWN_DELAY has passed with fewer than ICEBERG_MAX_COUNT afloat the drawn iceberg is appended in column 0 and the spawn timer set to now, and otherwise nothing changes; no other change to the list happens, and collisions remove no iceberg and change no score |
| World.UpdateExpiry | arctic.js:1131-1146 | when time runs out the round is over, every boat's direction is cleared, scores stay, and every later tick changes nothing |
| World.UpdateKeepsRoundAndScores | arctic.js:453-473 | a tick keeps the mode, touches the round state only to end it when time has run out, and adds at most one rescue per boat |
| World.StartBeginsRound | arctic.js:395-408 | a new round runs with the full 60 s, no icebergs, both iceberg timers at 0, unpaused, and the playing boats fresh at their spawn cells; the other mode's boats and the mode stay |
| Replication.EncodeIcebergs | arctic.js:585-589 | the published list has one entry per iceberg |
| Replication.EncodeRound | arctic.js:537-544 | the `game` block is an object, and its `pauseStartedAt` is `null` exactly when no pause instant is recorded |
| Replication.ActorFields | arctic.js:547-555 | the shared boat fields hold the cargo as a boolean, and no position key, so the position can sit beside or under them; `ActorFieldsRoundTrip` reads them back |
| Replication.EncodeSingle | arctic.js:546-556 | the `single` block is an object with the position nested under `player` |
| Replication.EncodePlayer | arctic.js:558-583 | a two-player block is an object with the position beside the other fields |
| Replication.EncodeIceberg | arctic.js:585-589 | a published iceberg entry carries the iceberg's own numeric row, col and variant, so the guest's filter accepts it |
| Replication.BuildNetState | arctic.js:533-595 | the snapshot is an object with exactly the six blocks mode, game, single, local2, icebergs and icebergTiming |
| Replication.ApplyNetState | arctic.js:597-696 | a payload that is not an object changes nothing, a payload without an iceberg array keeps the icebergs, and one without a mode keeps the mode |
| Replication.ApplyRound | arctic.js:607-618 | a block that is not an object leaves the round as it was, a `null` pause instant clears the pause, and a missing start time keeps the old one |
| Replication.ApplyActorFields | arctic.js:627-635 | a block that is not an object leaves the boat as it was, and the shared fields never move the boat |
| Replication.ApplySingle | arctic.js:621-636 | a block that is not an object leaves the boat as it was, and a coordinate missing under `player` is kept |
| Replication.ApplyPlayer | arctic.js:641-668 | a block that is not an object leaves the boat as it was, and a missing `col` or `row` is kept |
| Replication.DecodeIcebergs | arctic.js:672-686 | an iceberg is decoded exactly when some entry carries numeric row, col and variant equal to its own, and never more icebergs than entries |
| Replication.DecodeIcebergsConcat | arctic.js:672-686 | the filter keeps order: decoding a concatenation decodes each part in place |
| Replication.IcebergsRoundTrip | arctic.js:672-686 | decoding the published iceberg list gives back the icebergs, in order |
| Replication.RoundRoundTrip | arctic.js:607-618 | applying a published `game` block reproduces the host's round state, whatever the guest held |
| Replication.ActorFieldsRoundTrip | arctic.js:621-668 | a block holding every common boat field reads back as that boat, once its position is in place |
| Replication.SingleRoundTrip | arctic.js:621-636 | applying a published `single` block reproduces the host's boat, whatever the guest held |
| Replication.PlayerRoundTrip | arctic.js:641-668 | applying a published two-player block reproduces the host's boat, whatever the guest held |
| Replication.BuildNetStateParts | arctic.js:533-595 | where each part of the state sits in the snapshot |
| Replication.BuildNetStateTop | arctic.js:536-556 | where the snapshot holds the mode, the round and the single-player boat |
| Replication.BuildNetStateLocal2 | arctic.js:557-584 | where the snapshot holds the two boats of the two-player modes |
| Replication.BuildNetStateIcebergs | arctic.js:585-589 | where the snapshot holds the iceberg list |
| Replication.BuildNetStateTiming | arctic.js:590-593 | where the snapshot holds the two iceberg timers |
| Replication.ApplyEncodedParts | arctic.js:597-696 | any object payload holding the host's encoded parts where buildNetState puts them makes the guest's state equal to the host's |
| Replication.ReplicationRoundTrip | arctic.js:597-696 | applying the host's snapshot makes the guest's state equal to the host's, whatever the guest held |
| Replication.RoundApplyIdempotent | arctic.js:607-618 | reading the same `game` block a second time changes nothing more |
| Replication.ActorFieldsApplyIdempotent | arctic.js:621-668 | reading the same common boat fields a second time changes nothing more |
| Replication.ActorApplyIdempotent | arctic.js:621-668 | reading the same `single` or two-player block a second time changes nothing more |
| Replication.ApplyIdempotent | arctic.js:597-696 | applying the same snapshot twice is the same as applying it once |
| Replication.ApplyNothing | arctic.js:598 | a payload that is not an object, or an empty one, changes nothing |
| Replication.NonObjectBlockKeepsValues | arctic.js:607-668 | a block that is absent or not an object leaves the round state and the boats as they were |
| Replication.MissingFieldKeepsValue | arctic.js:666 | a later snapshot without a boolean `carryingBear` keeps the cargo the earlier one set |
| Replication.GuestInputRoundTrip | arctic.js:742-744 | the host decodes exactly the direction the guest published (lines 80-84), and no input as (0, 0) |
| Replication.GuestInput | arctic.js:81-85 | the guest's payload is an object with exactly `dx`, `dy` and `updatedAt`; `GuestInputRoundTrip` shows the host reads the direction back |
| Replication.DecodeGuestInput | arctic.js:741-744 | a stored value that is not an object decodes to (0, 0), and numeric `dx` and `dy` are read as they are |
| Replication.ApplyGuestInput | arctic.js:733-754 | the second boat wants the decoded direction, (0, 0) when no input exists, and keeps its position, cargo and score |
| Replication.GuestInputFromStrings | arctic.js:743-744 | a direction stored as decimal text decodes to the same numbers |
| Replication.GuestInputSetsDesired | arctic.js:733-754 | whatever the input, the second boat ends up wanting the decoded direction, facing any nonzero one, and nothing else about it changes |
| Arctic.Session.constructor | arctic.js:254-322 | the session starts in the page-load state, in single mode, with no room |
| Arctic.Session.SelectMode | arctic.js:1879-1881 | the mode is the one chosen |
| Arctic.Session.HostRoomCreated | arctic.js:171-174 | the room is remembered, this side is the host, and no guest has joined |
| Arctic.Session.GuestRoomJoined | arctic.js:232-234 | the room is remembered and this side is the guest |
| Arctic.Session.GuestArrived | arctic.js:128-131 | the host knows the guest has joined |
| Arctic.Session.ResetPlayerPositionSingle | arctic.js:326-331 | the single boat is at column 5, row 10, facing up, and nothing else changes |
| Arctic.Session.ResetLocalPlayerPosition | arctic.js:333-346 | boat 1 goes to column 3, any other index moves boat 2 to column 6, on row 10 facing up; the other boat is untouched |
| Arctic.Session.ResetLocalPlayersPositions | arctic.js:348-351 | both boats are at their spawn cells facing up |
| Arctic.Session.ResetCommonState | arctic.js:353-361 | no icebergs, iceberg timers at 0, the round not over, not paused, with no pause time |
| Arctic.Session.ResetSingleState | arctic.js:363-373 | the single boat is fresh at column 5, whatever its state was |
| Arctic.Session.ResetLocal2State | arctic.js:375-393 | both boats are fresh at columns 3 and 6, whatever their state was |
| Arctic.Session.StartGame | arctic.js:395-408 | the new state is `World.Start` of the old, and validity is kept |
| Arctic.Session.UpdateGame | arctic.js:453-473 | the new state is one `World.Update` tick of the old, and validity is kept |
| Arctic.Session.UpdateTimer | arctic.js:1131-1146 | the new state is `World.TimerStep` of the old |
| Arctic.Session.Pause | arctic.js:1827-1830 | the round is paused with the pause instant recorded |
| Arctic.Session.Resume | arctic.js:1831-1837 | the round runs again with the paused span added to the pause total |
| Arctic.Session.PressPauseButton | arctic.js:1803-1838 | with no round running it starts one, unless this is an online host still waiting for its guest; otherwise it pauses or resumes |
| Arctic.Session.HandleReachNorthPoleSingle | arctic.js:1244-1248 | the single boat boards a bear if it has none |
| Arctic.Session.HandleReachContinentSingle | arctic.js:1250-1255 | the single boat lands its bear, one more rescue |
| Arctic.Session.HandleReachNorthPoleFor | arctic.js:1257-1263 | the indexed boat boards a bear if it has none; the other is untouched |
| Arctic.Session.HandleReachContinentFor | arctic.js:1265-1277 | the indexed boat lands its bear, one more rescue; the other is untouched |
| Arctic.Session.MovePlayer | arctic.js:1280-1299 | the single boat takes the grid step `Movement.Move` |
| Arctic.Session.HandleMovementSingle | arctic.js:1301-1315 | the single boat passes the movement gate `Movement.Tick` |
| Arctic.Session.MovePlayerFor | arctic.js:1318-1337 | the indexed boat takes the grid step; the other is untouched |
| Arctic.Session.HandleMovementForPlayer | arctic.js:1339-1381 | the indexed boat passes the movement gate; the other is untouched |
| Arctic.Session.HandleMovementLocal2 | arctic.js:1383-1386 | both boats pass the movement gate |
| Arctic.Session.HandleIcebergs | arctic.js:1389-1404 | the new state is `World.IcebergStep` of the old: move, spawn, collisions |
| Arctic.Session.MoveIcebergs | arctic.js:1406-1411 | the in-place column loop followed by the filter gives `Icebergs.Advanced` of the old list |
| Arctic.Session.SpawnIceberg | arctic.js:1413-1421 | the drawn iceberg is appended in column 0 |
| Arctic.Session.CheckCollisionsWithIcebergs | arctic.js:1423-1443 | a boat collides exactly when some iceberg is on the cell it held before the check, in both loops (with and without the early exit), and nothing else changes |
| Arctic.Session.HandleIcebergCollisionSingle | arctic.js:1446-1450 | the single boat has the collision outcome `Movement.Collide` at column 5 |
| Arctic.Session.HandleIcebergCollisionFor | arctic.js:1452-1462 | the indexed boat has the collision outcome at its spawn column; the other is untouched |
| Arctic.Session.SetDirectionSingle | arctic.js:1465-1472 | the single boat wants the direction, and faces it when it is nonzero |
| Arctic.Session.ClearDirectionSingle | arctic.js:1474-1477 | the single boat wants no direction; its facing stays |
| Arctic.Session.SetDirectionForPlayer | arctic.js:1479-1495 | the indexed boat wants the direction, facing it when nonzero; the other is untouched |
| Arctic.Session.ClearDirectionForPlayer | arctic.js:1497-1505 | the indexed boat wants no direction; the other is untouched |
| Arctic.Session.SetDirection | arctic.js:1508-1515 | in a two-boat mode the first boat is steered, else the single one; the rest is untouched |
| Arctic.Session.ClearDirection | arctic.js:1517-1523 | in a two-boat mode the first boat stops, else the single one; the rest is untouched |
| Arctic.Session.ApplyGuestInput | arctic.js:733-754 | the second boat becomes `Replication.ApplyGuestInput` of itself; the first is untouched |
| Arctic.Session.ApplyNetState | arctic.js:597-696 | the new state is `Replication.ApplyNetState` of the old, block by block |
| Arctic.Session.ApplyMode | arctic.js:601-604 | the mode is replaced only by a string |
| Arctic.Session.ApplyGame | arctic.js:607-618 | the round state is overwritten field by field from a truthy `game` block |
| Arctic.Session.ApplySingle | arctic.js:621-636 | the single boat is overwritten from a truthy `single` block, its position from a truthy `player` sub-block |
| Arctic.Session.ApplyLocal2 | arctic.js:639-669 | each boat is overwritten from its truthy sub-block of a truthy `local2` block |
| Arctic.Session.ApplyIcebergs | arctic.js:672-686 | the icebergs are replaced only when an array arrives, by the decoded entries, so that an iceberg is held exactly when some entry carries its numeric row, col and variant |
| Arctic.Session.ApplyIcebergTiming | arctic.js:689-695 | each iceberg timer is overwritten only by a number |
| Arctic.ReadRound | arctic.js:608-617 | the six round fields taken from the block where their types match |
| Arctic.ReadPauseStart | arctic.js:615-617 | `pauseStartedAt` is cleared by `null`, set by a number, and otherwise kept |
| Arctic.ReadNumber | arctic.js:612 | a property is taken exactly when it is a number, else the old value stays |
| Arctic.ReadBool | arctic.js:609 | a property is taken exactly when it is a boolean, else the old value stays |
| Arctic.ReadActorFields | arctic.js:627-635 | the nine shared boat fields taken from the block where their types match |
| Arctic.ReadPlayer | arctic.js:642-653 | a two-player block's position and fields taken where their types match |

## Left out

- Rendering (every `draw*` function and `renderGame`), image loading, the
  DOM and mobile wiring, alerts and button labels: they do not change the
  game state.
- The `requestAnimationFrame` loop (`loop`): the model takes one
  `updateGame` call at a time.
- The keyboard event handlers (arctic.js:1527-1624), the window key
  listeners (arctic.js:1669-1726) and the on-screen pad wiring
  (arctic.js:1737-1767). The single-player and local two-player handlers
  match `e.code` and `e.key` themselves and call the `setDirection*` and
  `clearDirection*` functions. Only the online listeners go through
  `getDirectionFromAnyKey`. The mapping and the direction functions are
  modelled; the routing is not.
- Firebase I/O and the online polling: `createOnlineRoomAsHost`, the get of
  `joinOnlineRoomAsGuest`, `startWaitingForGuest`, the timing of
  `handleOnlineSync` and `sendGuestInput`'s write. The model covers only
  their effects on the session: `HostRoomCreated`, `GuestRoomJoined`,
  `GuestArrived`, the published `GuestInput`, `ApplyGuestInput` and
  `ApplyNetState`. The store's own habit of dropping `null` fields and
  empty arrays is not modelled. The model sends and receives snapshots
  exactly as built.
- `generateRoomId` and the random draws of `spawnIceberg`: randomness is a
  parameter.
- Floating point: JSON numbers are integers (`Json.Num`), since every
  number the game writes is a whole count of cells or milliseconds. `NaN`,
  `Infinity`, fractions and exponents are not represented.
- Json.StringToNumber / Json.ToNumber: `Number()` of a string is modelled
  only for decimal integers with an optional sign and surrounding white
  space. Every other numeric string gives `None`, the model's stand-in for
  `NaN`, where JavaScript reads a number: hexadecimal (`"0xFF"`), binary
  (`"0b11"`), octal (`"0o7"`), fractional, including a trailing or leading
  dot (`"5."`, `".5"`), exponent (`"1e3"`) and `"Infinity"` strings. So
  `Number(x) || 0` reads them as 0, and numbers are integers in the model
  (see the floating-point line above).
- `gameMode` and `gameState.mode` are one field, `mode`: every assignment
  in the script sets both together.
- `movePlayerFor(playerObj, dx, dy, playerIndex)` and its caller always pass
  a boat together with its own index. The model passes only the index.
- The mutation of the iceberg objects in place (`iceberg.col += 1`) is a
  field update of a value in a sequence. No other reference to those
  objects exists in the core, so aliasing is not modelled.
- `artic.js` is an early prototype on a 10 × 10 grid. It holds only
  drawing, event listeners and a clamped move, which the boundary handling
  of `arctic.js` supersedes. It is not part of this model.
