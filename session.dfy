/**
 * The game session as the browser script keeps it: one object whose
 * fields are the script's module-level state, and one method per
 * state-changing function of the simulation core, each proved to have the
 * effect the pure model in World, Movement, Icebergs, RoundClock and
 * Replication describes.
 *
 * `Date.now()` is the `now` parameter; the two `Math.random()` draws of
 * spawnIceberg are the `row` and `variant` parameters.
 */
module Arctic {
  import opened Options
  import opened Json
  import opened Movement
  import opened Icebergs
  import opened RoundClock
  import opened Keys
  import opened World
  import Replication

  class Session {
    /** `gameMode`, and `gameState.mode`: every assignment sets both. */
    var mode: string
    /** The rest of `gameState`. */
    var game: Round
    /** `player`, `facingDx` ... `savedBears` of single-player mode. */
    var single: Actor
    /** `player1` / `player2` and their numbered variables, for two players. */
    var p1: Actor
    var p2: Actor
    var icebergs: seq<Iceberg>
    var lastIcebergMoveTime: int
    var lastIcebergSpawnTime: int
    var onlineRoomId: Option<string>
    var onlineIsHost: bool
    /**
     * Never declared in the script; every read is guarded by `onlineIsHost`,
     * which is only set together with this flag's reset to false.
     */
    var onlineGuestJoined: bool

    /** The replicated part of the session. */
    function Exported(): Snapshot
      reads this
    {
      Snapshot(mode, game, single, p1, p2, icebergs, lastIcebergMoveTime, lastIcebergSpawnTime)
    }

    predicate Valid()
      reads this
    {
      World.Valid(Exported())
    }

    predicate TwoPlayerMode()
      reads this
    {
      TwoPlayer(mode, onlineIsHost)
    }

    /** The state on page load, ending with the script's start-up `resetPlayerPositionSingle()`. */
    constructor ()
      ensures Exported() == Initial()
      ensures onlineRoomId == None && !onlineIsHost && !onlineGuestJoined
      ensures Valid()
    {
      mode := "single";
      game := Round(false, false, false, 0, 0, None);
      single := Actor(GridCols / 2, GridRows - 2, 0, -1, 0, 0, 0, 0, 0, false, 0);
      p1 := Actor(3, GridRows - 2, 0, -1, 0, 0, 0, 0, 0, false, 0);
      p2 := Actor(6, GridRows - 2, 0, -1, 0, 0, 0, 0, 0, false, 0);
      icebergs := [];
      lastIcebergMoveTime := 0;
      lastIcebergSpawnTime := 0;
      onlineRoomId := None;
      onlineIsHost := false;
      onlineGuestJoined := false;
      new;
      ResetPlayerPositionSingle();
    }

    // ----- mode and room role (the state the menu and the room callbacks set) -----

    method SelectMode(m: string)
      modifies this`mode
      ensures mode == m
    {
      mode := m;
    }

    /** The host's room was written: remember it and wait for a guest. */
    method HostRoomCreated(roomId: string)
      modifies this`onlineRoomId, this`onlineIsHost, this`onlineGuestJoined
      ensures onlineRoomId == Some(roomId) && onlineIsHost && !onlineGuestJoined
    {
      onlineRoomId := Some(roomId);
      onlineIsHost := true;
      onlineGuestJoined := false;
    }

    /** The guest's join was written. */
    method GuestRoomJoined(roomId: string)
      modifies this`onlineRoomId, this`onlineIsHost
      ensures onlineRoomId == Some(roomId) && !onlineIsHost
    {
      onlineRoomId := Some(roomId);
      onlineIsHost := false;
    }

    /** The host saw the guest's presence marker. */
    method GuestArrived()
      modifies this`onlineGuestJoined
      ensures onlineGuestJoined
    {
      onlineGuestJoined := true;
    }

    // ----- reset helpers and startGame -----

    method ResetPlayerPositionSingle()
      modifies this`single
      ensures single == old(single).(col := SingleSpawnCol, row := SpawnRow, facingDx := 0, facingDy := -1)
    {
      single := single.(col := GridCols / 2, row := GridRows - 2);
      single := single.(facingDx := 0, facingDy := -1);
    }

    method ResetLocalPlayerPosition(index: int)
      modifies this`p1, this`p2
      ensures index == 1 ==> p1 == old(p1).(col := Player1SpawnCol, row := SpawnRow, facingDx := 0, facingDy := -1) && p2 == old(p2)
      ensures index != 1 ==> p2 == old(p2).(col := Player2SpawnCol, row := SpawnRow, facingDx := 0, facingDy := -1) && p1 == old(p1)
    {
      var row := GridRows - 2;
      if index == 1 {
        p1 := p1.(col := 3, row := row, facingDx := 0, facingDy := -1);
      } else {
        p2 := p2.(col := 6, row := row, facingDx := 0, facingDy := -1);
      }
    }

    method ResetLocalPlayersPositions()
      modifies this`p1, this`p2
      ensures p1 == old(p1).(col := Player1SpawnCol, row := SpawnRow, facingDx := 0, facingDy := -1)
      ensures p2 == old(p2).(col := Player2SpawnCol, row := SpawnRow, facingDx := 0, facingDy := -1)
    {
      ResetLocalPlayerPosition(1);
      ResetLocalPlayerPosition(2);
    }

    method ResetCommonState()
      modifies this`icebergs, this`game, this`lastIcebergMoveTime, this`lastIcebergSpawnTime
      ensures icebergs == [] && lastIcebergMoveTime == 0 && lastIcebergSpawnTime == 0
      ensures game == old(game).(gameOver := false, paused := false, pauseAccumulated := 0, pauseStartedAt := None)
    {
      icebergs := [];
      game := game.(gameOver := false);
      game := game.(paused := false);
      game := game.(pauseAccumulated := 0);
      game := game.(pauseStartedAt := None);
      lastIcebergMoveTime := 0;
      lastIcebergSpawnTime := 0;
    }

    /** Whatever the boat's state, it becomes a fresh boat at column 5. */
    method ResetSingleState()
      modifies this`single
      ensures single == Fresh(SingleSpawnCol)
    {
      single := single.(saved := 0);
      single := single.(carrying := false);
      ResetPlayerPositionSingle();
      ClearDirectionSingle();
      single := single.(lastStepDx := 0, lastStepDy := 0);
      single := single.(lastMoveTime := 0);
      single := single.(facingDx := 0, facingDy := -1);
    }

    /** Whatever their state, the two boats become fresh boats at columns 3 and 6. */
    method ResetLocal2State()
      modifies this`p1, this`p2
      ensures p1 == Fresh(Player1SpawnCol) && p2 == Fresh(Player2SpawnCol)
    {
      p1, p2 := p1.(saved := 0), p2.(saved := 0);
      p1, p2 := p1.(carrying := false), p2.(carrying := false);
      ResetLocalPlayersPositions();
      ClearDirectionForPlayer(1);
      ClearDirectionForPlayer(2);
      p1, p2 := p1.(lastStepDx := 0, lastStepDy := 0), p2.(lastStepDx := 0, lastStepDy := 0);
      p1, p2 := p1.(lastMoveTime := 0), p2.(lastMoveTime := 0);
      p1, p2 := p1.(facingDx := 0, facingDy := -1), p2.(facingDx := 0, facingDy := -1);
    }

    method StartGame(now: int)
      modifies this`icebergs, this`game, this`lastIcebergMoveTime, this`lastIcebergSpawnTime
      modifies this`single, this`p1, this`p2
      ensures Exported() == Start(old(Exported()), TwoPlayerMode(), now)
      ensures old(Valid()) ==> Valid()
    {
      ResetCommonState();
      if TwoPlayerMode() {
        ResetLocal2State();
      } else {
        ResetSingleState();
      }
      game := game.(gameStarted := true);
      game := game.(roundStartTime := now);
      StartBeginsRound(old(Exported()), TwoPlayerMode(), now);
    }

    // ----- updateGame -----

    /** One frame of the simulation, with the random spawn draw given. */
    method UpdateGame(now: int, row: int, variant: int)
      requires IcebergMinRow <= row <= IcebergMaxRow && 0 <= variant < IcebergVariants
      modifies this`icebergs, this`game, this`lastIcebergMoveTime, this`lastIcebergSpawnTime
      modifies this`single, this`p1, this`p2
      ensures Exported() == Update(old(Exported()), IsGuest(onlineRoomId, onlineIsHost), TwoPlayerMode(), now, row, variant)
      ensures old(Valid()) ==> Valid()
    {
      if RoomActive(onlineRoomId) && !onlineIsHost {
        return;
      }
      if game.gameStarted && !game.gameOver && !game.paused {
        UpdateTimer(now);
        if TwoPlayerMode() {
          HandleMovementLocal2(now);
        } else {
          HandleMovementSingle(now);
        }
        HandleIcebergs(now, row, variant);
      }
      if old(Valid()) {
        UpdatePreservesValid(old(Exported()), IsGuest(onlineRoomId, onlineIsHost), TwoPlayerMode(), now, row, variant);
      }
    }

    // ----- round clock -----

    method UpdateTimer(now: int)
      modifies this`game, this`single, this`p1, this`p2
      ensures Exported() == TimerStep(old(Exported()), now)
    {
      var effectiveNow := now;
      if game.pauseStartedAt.Some? {
        effectiveNow := game.pauseStartedAt.value;
      }
      var elapsed := effectiveNow - game.roundStartTime - game.pauseAccumulated;
      var remaining := RoundDurationMs - elapsed;
      if remaining <= 0 {
        game := game.(gameOver := true);
        ClearDirectionSingle();
        ClearDirectionForPlayer(1);
        ClearDirectionForPlayer(2);
      }
    }

    /** The pause button while the round runs. */
    method Pause(now: int)
      modifies this`game
      ensures game == PauseRound(old(game), now)
    {
      game := game.(paused := true);
      game := game.(pauseStartedAt := Some(now));
    }

    /** The pause button while the round is paused. */
    method Resume(now: int)
      modifies this`game
      ensures game == ResumeRound(old(game), now)
    {
      game := game.(paused := false);
      if game.pauseStartedAt.Some? {
        game := game.(pauseAccumulated := game.pauseAccumulated + (now - game.pauseStartedAt.value));
        game := game.(pauseStartedAt := None);
      }
    }

    /**
     * The start/pause button: it starts a round when none is running (an
     * online host only once the guest is there), otherwise it pauses or resumes.
     */
    method PressPauseButton(now: int)
      modifies this`icebergs, this`game, this`lastIcebergMoveTime, this`lastIcebergSpawnTime
      modifies this`single, this`p1, this`p2
      ensures var g := old(game);
        if !g.gameStarted || g.gameOver then
          if mode == "online2" && onlineIsHost && !onlineGuestJoined then Exported() == old(Exported())
          else Exported() == Start(old(Exported()), TwoPlayerMode(), now)
        else Exported() == old(Exported()).(game := if g.paused then ResumeRound(g, now) else PauseRound(g, now))
    {
      if !game.gameStarted || game.gameOver {
        if mode == "online2" && onlineIsHost && !onlineGuestJoined {
          return;
        }
        StartGame(now);
        return;
      }
      if !game.paused {
        Pause(now);
      } else {
        Resume(now);
      }
    }

    // ----- pickup / drop-off -----

    method HandleReachNorthPoleSingle()
      modifies this`single
      ensures single == ReachPole(old(single))
    {
      if !single.carrying {
        single := single.(carrying := true);
      }
    }

    method HandleReachContinentSingle()
      modifies this`single
      ensures single == ReachContinent(old(single))
    {
      if single.carrying {
        single := single.(carrying := false);
        single := single.(saved := single.saved + 1);
      }
    }

    method HandleReachNorthPoleFor(index: int)
      modifies this`p1, this`p2
      ensures index == 1 ==> p1 == ReachPole(old(p1)) && p2 == old(p2)
      ensures index != 1 ==> p2 == ReachPole(old(p2)) && p1 == old(p1)
    {
      if index == 1 {
        if !p1.carrying { p1 := p1.(carrying := true); }
      } else {
        if !p2.carrying { p2 := p2.(carrying := true); }
      }
    }

    method HandleReachContinentFor(index: int)
      modifies this`p1, this`p2
      ensures index == 1 ==> p1 == ReachContinent(old(p1)) && p2 == old(p2)
      ensures index != 1 ==> p2 == ReachContinent(old(p2)) && p1 == old(p1)
    {
      if index == 1 {
        if p1.carrying {
          p1 := p1.(carrying := false);
          p1 := p1.(saved := p1.saved + 1);
        }
      } else {
        if p2.carrying {
          p2 := p2.(carrying := false);
          p2 := p2.(saved := p2.saved + 1);
        }
      }
    }

    // ----- movement -----

    method MovePlayer(dx: int, dy: int)
      modifies this`single
      ensures single == Move(old(single), dx, dy)
    {
      var newCol := single.col + dx;
      if 0 <= newCol < GridCols {
        single := single.(col := newCol);
      }
      if dy < 0 {
        if single.row > 1 {
          single := single.(row := single.row - 1);
        } else if single.row == 1 {
          HandleReachNorthPoleSingle();
        }
      } else if dy > 0 {
        if single.row < GridRows - 2 {
          single := single.(row := single.row + 1);
        } else if single.row == GridRows - 2 {
          HandleReachContinentSingle();
        }
      }
    }

    method HandleMovementSingle(now: int)
      modifies this`single
      ensures single == Tick(old(single), now)
    {
      if single.desiredDx == 0 && single.desiredDy == 0 {
        return;
      }
      if single.desiredDx != single.lastStepDx || single.desiredDy != single.lastStepDy {
        single := single.(lastStepDx := single.desiredDx, lastStepDy := single.desiredDy);
        single := single.(lastMoveTime := now);
        return;
      }
      if now - single.lastMoveTime < MoveDelay {
        return;
      }
      MovePlayer(single.desiredDx, single.desiredDy);
      single := single.(lastMoveTime := now);
    }

    /** movePlayerFor(playerObj, dx, dy, playerIndex), with the boat chosen by its index. */
    method MovePlayerFor(index: int, dx: int, dy: int)
      modifies this`p1, this`p2
      ensures index == 1 ==> p1 == Move(old(p1), dx, dy) && p2 == old(p2)
      ensures index != 1 ==> p2 == Move(old(p2), dx, dy) && p1 == old(p1)
    {
      var a := if index == 1 then p1 else p2;
      var newCol := a.col + dx;
      if 0 <= newCol < GridCols {
        a := a.(col := newCol);
      }
      if index == 1 { p1 := a; } else { p2 := a; }
      if dy < 0 {
        if a.row > 1 {
          a := a.(row := a.row - 1);
          if index == 1 { p1 := a; } else { p2 := a; }
        } else if a.row == 1 {
          HandleReachNorthPoleFor(index);
        }
      } else if dy > 0 {
        if a.row < GridRows - 2 {
          a := a.(row := a.row + 1);
          if index == 1 { p1 := a; } else { p2 := a; }
        } else if a.row == GridRows - 2 {
          HandleReachContinentFor(index);
        }
      }
    }

    method HandleMovementForPlayer(index: int, now: int)
      modifies this`p1, this`p2
      ensures index == 1 ==> p1 == Tick(old(p1), now) && p2 == old(p2)
      ensures index != 1 ==> p2 == Tick(old(p2), now) && p1 == old(p1)
    {
      var a := if index == 1 then p1 else p2;
      var dx, dy := a.desiredDx, a.desiredDy;
      var lastDx, lastDy, lastMove := a.lastStepDx, a.lastStepDy, a.lastMoveTime;
      if dx == 0 && dy == 0 {
        return;
      }
      if dx != lastDx || dy != lastDy {
        if index == 1 {
          p1 := p1.(lastStepDx := dx, lastStepDy := dy, lastMoveTime := now);
        } else {
          p2 := p2.(lastStepDx := dx, lastStepDy := dy, lastMoveTime := now);
        }
        return;
      }
      if now - lastMove < MoveDelay {
        return;
      }
      if index == 1 {
        MovePlayerFor(1, dx, dy);
        p1 := p1.(lastMoveTime := now);
      } else {
        MovePlayerFor(2, dx, dy);
        p2 := p2.(lastMoveTime := now);
      }
    }

    method HandleMovementLocal2(now: int)
      modifies this`p1, this`p2
      ensures p1 == Tick(old(p1), now) && p2 == Tick(old(p2), now)
    {
      HandleMovementForPlayer(1, now);
      HandleMovementForPlayer(2, now);
    }

    // ----- icebergs -----

    method HandleIcebergs(now: int, row: int, variant: int)
      requires IcebergMinRow <= row <= IcebergMaxRow && 0 <= variant < IcebergVariants
      modifies this`icebergs, this`lastIcebergMoveTime, this`lastIcebergSpawnTime
      modifies this`single, this`p1, this`p2
      ensures Exported() == IcebergStep(old(Exported()), TwoPlayerMode(), now, row, variant)
    {
      if now - lastIcebergMoveTime >= IcebergMoveDelay {
        MoveIcebergs();
        lastIcebergMoveTime := now;
      }
      if now - lastIcebergSpawnTime >= IcebergSpawnDelay && |icebergs| < IcebergMaxCount {
        SpawnIceberg(row, variant);
        lastIcebergSpawnTime := now;
      }
      CheckCollisionsWithIcebergs();
    }

    /** Every iceberg one column on, in place, then those off the board dropped. */
    method MoveIcebergs()
      modifies this`icebergs
      ensures icebergs == Advanced(old(icebergs))
    {
      var i := 0;
      while i < |icebergs|
        invariant |icebergs| == |old(icebergs)| && 0 <= i <= |icebergs|
        invariant forall k :: 0 <= k < i ==> icebergs[k] == old(icebergs)[k].(col := old(icebergs)[k].col + 1)
        invariant forall k :: i <= k < |icebergs| ==> icebergs[k] == old(icebergs)[k]
      {
        icebergs := icebergs[i := icebergs[i].(col := icebergs[i].col + 1)];
        i := i + 1;
      }
      assert icebergs == Shifted(old(icebergs));
      icebergs := OnBoard(icebergs);
    }

    /** A new iceberg in column 0; `row` and `variant` are the random draws. */
    method SpawnIceberg(row: int, variant: int)
      requires IcebergMinRow <= row <= IcebergMaxRow && 0 <= variant < IcebergVariants
      modifies this`icebergs
      ensures icebergs == old(icebergs) + [Spawned(row, variant)]
    {
      icebergs := icebergs + [Iceberg(row, 0, variant)];
    }

    /**
     * Two boats: each iceberg is checked against both, with no early exit;
     * one boat: the first iceberg on its cell ends the search. Either way a
     * boat collides when some iceberg is on the cell it held before the check.
     */
    method CheckCollisionsWithIcebergs()
      modifies this`single, this`p1, this`p2
      ensures Exported() == CollisionStep(old(Exported()), TwoPlayerMode())
    {
      if TwoPlayerMode() {
        var i := 0;
        while i < |icebergs|
          invariant 0 <= i <= |icebergs| && single == old(single)
          invariant p1 == if Hit(icebergs[..i], old(p1).row, old(p1).col) then Collide(old(p1), Player1SpawnCol) else old(p1)
          invariant p2 == if Hit(icebergs[..i], old(p2).row, old(p2).col) then Collide(old(p2), Player2SpawnCol) else old(p2)
        {
          var iceberg := icebergs[i];
          assert icebergs[..i + 1] == icebergs[..i] + [iceberg];
          if iceberg.row == p1.row && iceberg.col == p1.col {
            HandleIcebergCollisionFor(1);
          }
          if iceberg.row == p2.row && iceberg.col == p2.col {
            HandleIcebergCollisionFor(2);
          }
          i := i + 1;
        }
        assert icebergs[..i] == icebergs;
      } else {
        var i := 0;
        ghost var hit := false;
        while i < |icebergs|
          invariant 0 <= i <= |icebergs| && p1 == old(p1) && p2 == old(p2) && single == old(single)
          invariant !Hit(icebergs[..i], single.row, single.col)
        {
          var iceberg := icebergs[i];
          assert icebergs[..i + 1] == icebergs[..i] + [iceberg];
          if iceberg.row == single.row && iceberg.col == single.col {
            HandleIcebergCollisionSingle();
            hit := true;
            break;
          }
          i := i + 1;
        }
        if !hit {
          assert icebergs[..i] == icebergs;
        }
      }
    }

    method HandleIcebergCollisionSingle()
      modifies this`single
      ensures single == Collide(old(single), SingleSpawnCol)
    {
      if single.carrying {
        single := single.(carrying := false);
      }
      ResetPlayerPositionSingle();
      ClearDirectionSingle();
    }

    method HandleIcebergCollisionFor(index: int)
      modifies this`p1, this`p2
      ensures index == 1 ==> p1 == Collide(old(p1), Player1SpawnCol) && p2 == old(p2)
      ensures index != 1 ==> p2 == Collide(old(p2), Player2SpawnCol) && p1 == old(p1)
    {
      if index == 1 {
        if p1.carrying { p1 := p1.(carrying := false); }
        ResetLocalPlayerPosition(1);
        ClearDirectionForPlayer(1);
      } else {
        if p2.carrying { p2 := p2.(carrying := false); }
        ResetLocalPlayerPosition(2);
        ClearDirectionForPlayer(2);
      }
    }

    // ----- direction input -----

    method SetDirectionSingle(dx: int, dy: int)
      modifies this`single
      ensures single == SetDesired(old(single), dx, dy)
    {
      single := single.(desiredDx := dx, desiredDy := dy);
      if dx != 0 || dy != 0 {
        single := single.(facingDx := dx, facingDy := dy);
      }
    }

    method ClearDirectionSingle()
      modifies this`single
      ensures single == ClearDesired(old(single))
    {
      single := single.(desiredDx := 0, desiredDy := 0);
    }

    method SetDirectionForPlayer(index: int, dx: int, dy: int)
      modifies this`p1, this`p2
      ensures index == 1 ==> p1 == SetDesired(old(p1), dx, dy) && p2 == old(p2)
      ensures index != 1 ==> p2 == SetDesired(old(p2), dx, dy) && p1 == old(p1)
    {
      if index == 1 {
        p1 := p1.(desiredDx := dx, desiredDy := dy);
        if dx != 0 || dy != 0 {
          p1 := p1.(facingDx := dx, facingDy := dy);
        }
      } else {
        p2 := p2.(desiredDx := dx, desiredDy := dy);
        if dx != 0 || dy != 0 {
          p2 := p2.(facingDx := dx, facingDy := dy);
        }
      }
    }

    method ClearDirectionForPlayer(index: int)
      modifies this`p1, this`p2
      ensures index == 1 ==> p1 == ClearDesired(old(p1)) && p2 == old(p2)
      ensures index != 1 ==> p2 == ClearDesired(old(p2)) && p1 == old(p1)
    {
      if index == 1 {
        p1 := p1.(desiredDx := 0, desiredDy := 0);
      } else {
        p2 := p2.(desiredDx := 0, desiredDy := 0);
      }
    }

    /** The on-screen pad: the first boat in the two-player modes, else the single boat. */
    method SetDirection(dx: int, dy: int)
      modifies this`single, this`p1, this`p2
      ensures TwoPlayerMode() ==> p1 == SetDesired(old(p1), dx, dy) && single == old(single) && p2 == old(p2)
      ensures !TwoPlayerMode() ==> single == SetDesired(old(single), dx, dy) && p1 == old(p1) && p2 == old(p2)
    {
      if TwoPlayerMode() {
        SetDirectionForPlayer(1, dx, dy);
      } else {
        SetDirectionSingle(dx, dy);
      }
    }

    method ClearDirection()
      modifies this`single, this`p1, this`p2
      ensures TwoPlayerMode() ==> p1 == ClearDesired(old(p1)) && single == old(single) && p2 == old(p2)
      ensures !TwoPlayerMode() ==> single == ClearDesired(old(single)) && p1 == old(p1) && p2 == old(p2)
    {
      if TwoPlayerMode() {
        ClearDirectionForPlayer(1);
      } else {
        ClearDirectionSingle();
      }
    }

    // ----- replication -----

    /**
     * The host's use of the guest's stored input (`None` when nothing is
     * stored): stop the second boat, or steer it the decoded way.
     */
    method ApplyGuestInput(input: Option<JsonValue>)
      modifies this`p1, this`p2
      ensures p2 == Replication.ApplyGuestInput(old(p2), input) && p1 == old(p1)
    {
      if input.None? {
        ClearDirectionForPlayer(2);
        return;
      }
      var d := Replication.DecodeGuestInput(input);
      if d.dx == 0 && d.dy == 0 {
        ClearDirectionForPlayer(2);
      } else {
        SetDirectionForPlayer(2, d.dx, d.dy);
      }
    }

    /** applyNetState: the guest's block-by-block overwrite from the host's snapshot. */
    method ApplyNetState(state: JsonValue)
      modifies this`mode, this`game, this`single, this`p1, this`p2
      modifies this`icebergs, this`lastIcebergMoveTime, this`lastIcebergSpawnTime
      ensures Exported() == Replication.ApplyNetState(old(Exported()), state)
    {
      // `!state || typeof state !== "object"`: only objects and arrays get
      // through, and an array has none of the properties read below.
      if !(state.Obj? || state.Arr?) {
        return;
      }
      var j := Some(state);
      ApplyMode(Get(j, "mode"));
      ApplyGame(Get(j, "game"));
      ApplySingle(Get(j, "single"));
      ApplyLocal2(Get(j, "local2"));
      ApplyIcebergs(Get(j, "icebergs"));
      ApplyIcebergTiming(Get(j, "icebergTiming"));
      if state.Arr? {
        Replication.ApplyNothing(old(Exported()), state);
      }
    }

    method ApplyMode(m: Option<JsonValue>)
      modifies this`mode
      ensures mode == Replication.StrOr(m, old(mode))
    {
      if m.Some? && m.value.Str? {
        mode := m.value.s;
      }
    }

    /** The `state.single` block, with the position nested under `player`. */
    method ApplySingle(v: Option<JsonValue>)
      modifies this`single
      ensures single == Replication.ApplySingle(old(single), v)
    {
      if !Truthy(v) {
        Replication.NonObjectBlockKeepsValues(game, single, v);
        return;
      }
      var a := single;
      var p := Get(v, "player");
      if Truthy(p) {
        var col := ReadNumber(p, "col", a.col);
        var row := ReadNumber(p, "row", a.row);
        a := a.(col := col, row := row);
      }
      single := ReadActorFields(a, v);
    }

    /** The `state.local2` block: one sub-block per boat. */
    method ApplyLocal2(l: Option<JsonValue>)
      modifies this`p1, this`p2
      ensures p1 == Replication.ApplyPlayer(old(p1), Get(l, "player1"))
      ensures p2 == Replication.ApplyPlayer(old(p2), Get(l, "player2"))
    {
      var b1 := Get(l, "player1");
      var b2 := Get(l, "player2");
      if !Truthy(l) {
        return;
      }
      if Truthy(b1) {
        p1 := ReadPlayer(p1, b1);
      } else {
        Replication.NonObjectBlockKeepsValues(game, p1, b1);
      }
      if Truthy(b2) {
        p2 := ReadPlayer(p2, b2);
      } else {
        Replication.NonObjectBlockKeepsValues(game, p2, b2);
      }
    }

    /** The iceberg list is replaced only when an array arrives. */
    method ApplyIcebergs(xs: Option<JsonValue>)
      modifies this`icebergs
      ensures icebergs == match xs case Some(Arr(items)) => Replication.DecodeIcebergs(items) case _ => old(icebergs)
      ensures xs.Some? && xs.value.Arr? ==>
        forall x :: x in icebergs <==> exists v :: v in xs.value.items && Replication.Decodes(v, x)
    {
      if xs.Some? && xs.value.Arr? {
        icebergs := Replication.DecodeIcebergs(xs.value.items);
      }
    }

    method ApplyIcebergTiming(t: Option<JsonValue>)
      modifies this`lastIcebergMoveTime, this`lastIcebergSpawnTime
      ensures lastIcebergMoveTime == Replication.NumOr(Get(t, "lastIcebergMoveTime"), old(lastIcebergMoveTime))
      ensures lastIcebergSpawnTime == Replication.NumOr(Get(t, "lastIcebergSpawnTime"), old(lastIcebergSpawnTime))
    {
      if !Truthy(t) {
        return;
      }
      lastIcebergMoveTime := ReadNumber(t, "lastIcebergMoveTime", lastIcebergMoveTime);
      lastIcebergSpawnTime := ReadNumber(t, "lastIcebergSpawnTime", lastIcebergSpawnTime);
    }

    /** The `state.game` block. */
    method ApplyGame(g: Option<JsonValue>)
      modifies this`game
      ensures game == Replication.ApplyRound(old(game), g)
    {
      if Truthy(g) {
        game := ReadRound(game, g);
      } else {
        Replication.NonObjectBlockKeepsValues(game, single, g);
      }
    }
  }

  /** The six fields of a `state.game` block, each taken when its value has the right type. */
  method ReadRound(g: Round, v: Option<JsonValue>) returns (r: Round)
    ensures r == Replication.ApplyRound(g, v)
  {
    var gameStarted := ReadBool(v, "gameStarted", g.gameStarted);
    var gameOver := ReadBool(v, "gameOver", g.gameOver);
    var paused := ReadBool(v, "paused", g.paused);
    var roundStartTime := ReadNumber(v, "roundStartTime", g.roundStartTime);
    var pauseAccumulated := ReadNumber(v, "pauseAccumulated", g.pauseAccumulated);
    var pauseStartedAt := ReadPauseStart(v, g.pauseStartedAt);
    r := Round(gameStarted, gameOver, paused, roundStartTime, pauseAccumulated, pauseStartedAt);
  }

  /** `pauseStartedAt` is taken when it is `null` (not paused) or a number. */
  method ReadPauseStart(v: Option<JsonValue>, d: Option<int>) returns (x: Option<int>)
    ensures Get(v, "pauseStartedAt") == Some(Null) ==> x == None
    ensures Get(v, "pauseStartedAt").Some? && Get(v, "pauseStartedAt").value.Num? ==> x == Some(Get(v, "pauseStartedAt").value.n)
    ensures !(Get(v, "pauseStartedAt").Some? && (Get(v, "pauseStartedAt").value.Null? || Get(v, "pauseStartedAt").value.Num?)) ==> x == d
  {
    x := d;
    var p := Get(v, "pauseStartedAt");
    if p == Some(Null) {
      x := None;
    } else if p.Some? && p.value.Num? {
      x := Some(p.value.n);
    }
  }

  /** `typeof v[key] === "number" ? v[key] : d`. */
  method ReadNumber(v: Option<JsonValue>, key: string, d: int) returns (x: int)
    ensures Get(v, key).Some? && Get(v, key).value.Num? ==> x == Get(v, key).value.n
    ensures !(Get(v, key).Some? && Get(v, key).value.Num?) ==> x == d
  {
    x := d;
    var f := Get(v, key);
    if f.Some? && f.value.Num? {
      x := f.value.n;
    }
  }

  /** `typeof v[key] === "boolean" ? v[key] : d`. */
  method ReadBool(v: Option<JsonValue>, key: string, d: bool) returns (x: bool)
    ensures Get(v, key).Some? && Get(v, key).value.Bool? ==> x == Get(v, key).value.b
    ensures !(Get(v, key).Some? && Get(v, key).value.Bool?) ==> x == d
  {
    x := d;
    var f := Get(v, key);
    if f.Some? && f.value.Bool? {
      x := f.value.b;
    }
  }

  /**
   * The nine fields a single-player or two-player block shares: each one
   * whose value has the right type overwrites its variable.
   */
  method ReadActorFields(a: Actor, v: Option<JsonValue>) returns (r: Actor)
    ensures r == Replication.ApplyActorFields(a, v)
  {
    var facingDx := ReadNumber(v, "facingDx", a.facingDx);
    var facingDy := ReadNumber(v, "facingDy", a.facingDy);
    var desiredDx := ReadNumber(v, "desiredDx", a.desiredDx);
    var desiredDy := ReadNumber(v, "desiredDy", a.desiredDy);
    var lastMoveTime := ReadNumber(v, "lastMoveTime", a.lastMoveTime);
    var lastStepDx := ReadNumber(v, "lastStepDx", a.lastStepDx);
    var lastStepDy := ReadNumber(v, "lastStepDy", a.lastStepDy);
    var carrying := ReadBool(v, "carryingBear", a.carrying);
    var saved := ReadNumber(v, "savedBears", a.saved);
    r := Actor(a.col, a.row, facingDx, facingDy, desiredDx, desiredDy,
               lastMoveTime, lastStepDx, lastStepDy, carrying, saved);
  }

  /** A `state.local2.playerN` block: position, then the shared fields. */
  method ReadPlayer(a: Actor, v: Option<JsonValue>) returns (r: Actor)
    ensures r == Replication.ApplyPlayer(a, v)
  {
    var col := ReadNumber(v, "col", a.col);
    var row := ReadNumber(v, "row", a.row);
    r := ReadActorFields(a.(col := col, row := row), v);
  }
}
