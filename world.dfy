/**
 * The whole game state as one value, and what one `updateGame` tick and
 * one `startGame` do to it. The fields are those the host replicates:
 * the mode, the round state, the single-player boat, the two boats of the
 * two-player modes, the icebergs and the iceberg timers.
 */
module World {
  import opened Options
  import opened Movement
  import opened Icebergs
  import opened RoundClock

  datatype Snapshot = Snapshot(
    mode: string,
    game: Round,
    single: Actor,
    p1: Actor,
    p2: Actor,
    icebergs: seq<Iceberg>,
    lastIcebergMoveTime: int,
    lastIcebergSpawnTime: int)

  /** The state when the page has loaded. */
  function Initial(): (r: Snapshot)
    ensures r.mode == "single" && !Running(r.game) && r.icebergs == []
    ensures forall now :: Tick(r.single, now) == r.single
  {
    Snapshot("single", Round(false, false, false, 0, 0, None),
      Fresh(SingleSpawnCol), Fresh(Player1SpawnCol), Fresh(Player2SpawnCol), [], 0, 0)
  }

  /** Two boats are simulated here: same-device play, or hosting an online room. */
  predicate TwoPlayer(mode: string, isHost: bool) {
    mode == "local2" || (mode == "online2" && isHost)
  }

  /** `onlineRoomId` is truthy: neither null nor the empty string. */
  predicate RoomActive(roomId: Option<string>) {
    roomId.Some? && roomId.value != ""
  }

  /** An online guest only mirrors the host. */
  predicate IsGuest(roomId: Option<string>, isHost: bool) {
    RoomActive(roomId) && !isHost
  }

  /** Every boat on the water rows, at most ten icebergs, all in their band. */
  predicate Valid(s: Snapshot) {
    InBounds(s.single) && InBounds(s.p1) && InBounds(s.p2) && Wellformed(s.icebergs)
  }

  lemma InitialValid()
    ensures Valid(Initial())
  {
  }

  predicate Running(g: Round) {
    g.gameStarted && !g.gameOver && !g.paused
  }

  // ----- one updateGame tick -----

  /** updateTimer: once no time remains, the round is over and every boat stops. */
  function TimerStep(s: Snapshot, now: int): (r: Snapshot)
    ensures Remaining(s.game, now) > 0 ==> r == s
    ensures Remaining(s.game, now) <= 0 ==>
      r.game == s.game.(gameOver := true)
      && r.single.desiredDx == 0 && r.single.desiredDy == 0
      && r.p1.desiredDx == 0 && r.p1.desiredDy == 0
      && r.p2.desiredDx == 0 && r.p2.desiredDy == 0
    ensures r.mode == s.mode && r.icebergs == s.icebergs
    ensures r.single.saved == s.single.saved && r.p1.saved == s.p1.saved && r.p2.saved == s.p2.saved
    ensures r.single.col == s.single.col && r.single.row == s.single.row
    ensures r.p1.col == s.p1.col && r.p1.row == s.p1.row && r.p2.col == s.p2.col && r.p2.row == s.p2.row
  {
    if Remaining(s.game, now) <= 0 then
      s.(game := s.game.(gameOver := true),
         single := ClearDesired(s.single), p1 := ClearDesired(s.p1), p2 := ClearDesired(s.p2))
    else s
  }

  /** handleMovementLocal2 or handleMovementSingle. */
  function MovementStep(s: Snapshot, twoPlayer: bool, now: int): (r: Snapshot)
    ensures r.mode == s.mode && r.game == s.game && r.icebergs == s.icebergs
    ensures r.lastIcebergMoveTime == s.lastIcebergMoveTime && r.lastIcebergSpawnTime == s.lastIcebergSpawnTime
    ensures twoPlayer ==> r.single == s.single
    ensures !twoPlayer ==> r.p1 == s.p1 && r.p2 == s.p2
  {
    if twoPlayer then s.(p1 := Tick(s.p1, now), p2 := Tick(s.p2, now))
    else s.(single := Tick(s.single, now))
  }

  /** The move timer of handleIcebergs. */
  function MoveStep(s: Snapshot, now: int): (r: Snapshot)
    ensures r.(icebergs := s.icebergs, lastIcebergMoveTime := s.lastIcebergMoveTime) == s
    ensures |r.icebergs| <= |s.icebergs|
    ensures r.lastIcebergMoveTime == s.lastIcebergMoveTime || r.lastIcebergMoveTime == now
  {
    if now - s.lastIcebergMoveTime >= IcebergMoveDelay then
      s.(icebergs := Advanced(s.icebergs), lastIcebergMoveTime := now)
    else s
  }

  /** The spawn timer of handleIcebergs, with the drawn row and variant. */
  function SpawnStep(s: Snapshot, now: int, row: int, variant: int): (r: Snapshot)
    ensures r.(icebergs := s.icebergs, lastIcebergSpawnTime := s.lastIcebergSpawnTime) == s
    ensures s.icebergs <= r.icebergs && |r.icebergs| <= |s.icebergs| + 1
    ensures |s.icebergs| <= IcebergMaxCount ==> |r.icebergs| <= IcebergMaxCount
  {
    if now - s.lastIcebergSpawnTime >= IcebergSpawnDelay && |s.icebergs| < IcebergMaxCount then
      s.(icebergs := s.icebergs + [Spawned(row, variant)], lastIcebergSpawnTime := now)
    else s
  }

  /** checkCollisionsWithIcebergs. */
  function CollisionStep(s: Snapshot, twoPlayer: bool): (r: Snapshot)
    ensures r.mode == s.mode && r.game == s.game && r.icebergs == s.icebergs
    ensures r.lastIcebergMoveTime == s.lastIcebergMoveTime && r.lastIcebergSpawnTime == s.lastIcebergSpawnTime
    ensures twoPlayer ==> r.single == s.single
    ensures !twoPlayer ==> r.p1 == s.p1 && r.p2 == s.p2
  {
    if twoPlayer then
      s.(p1 := Resolve(s.icebergs, s.p1, Player1SpawnCol), p2 := Resolve(s.icebergs, s.p2, Player2SpawnCol))
    else s.(single := Resolve(s.icebergs, s.single, SingleSpawnCol))
  }

  /** handleIcebergs: move, spawn, then collisions. */
  function IcebergStep(s: Snapshot, twoPlayer: bool, now: int, row: int, variant: int): (r: Snapshot)
    ensures r.mode == s.mode && r.game == s.game
    ensures r.single.saved == s.single.saved && r.p1.saved == s.p1.saved && r.p2.saved == s.p2.saved
    ensures |r.icebergs| <= |s.icebergs| + 1
  {
    CollisionStep(SpawnStep(MoveStep(s, now), now, row, variant), twoPlayer)
  }

  /** updateGame: timer, movement, icebergs, and nothing at all for a guest or a round not running. */
  function Update(s: Snapshot, guest: bool, twoPlayer: bool, now: int, row: int, variant: int): (r: Snapshot)
    ensures guest || !Running(s.game) ==> r == s
    ensures r.mode == s.mode
    ensures |r.icebergs| <= |s.icebergs| + 1
  {
    if guest then s
    else if Running(s.game) then
      IcebergStep(MovementStep(TimerStep(s, now), twoPlayer, now), twoPlayer, now, row, variant)
    else s
  }

  /** A guest, a round not started, over or paused: a tick changes nothing. */
  lemma UpdateGated(s: Snapshot, guest: bool, twoPlayer: bool, now: int, row: int, variant: int)
    requires guest || !s.game.gameStarted || s.game.gameOver || s.game.paused
    ensures Update(s, guest, twoPlayer, now, row, variant) == s
  {
  }

  /**
   * A tick keeps every boat on the water rows and the icebergs within
   * their cap and band, provided the drawn row and variant are in range.
   */
  lemma UpdatePreservesValid(s: Snapshot, guest: bool, twoPlayer: bool, now: int, row: int, variant: int)
    requires Valid(s)
    requires IcebergMinRow <= row <= IcebergMaxRow && 0 <= variant < IcebergVariants
    ensures Valid(Update(s, guest, twoPlayer, now, row, variant))
  {
    if !guest && Running(s.game) {
      var s1 := MovementStep(TimerStep(s, now), twoPlayer, now);
      TickInBounds(TimerStep(s, now).single, now);
      TickInBounds(TimerStep(s, now).p1, now);
      TickInBounds(TimerStep(s, now).p2, now);
      assert Valid(s1);
      var s2 := MoveStep(s1, now);
      if now - s1.lastIcebergMoveTime >= IcebergMoveDelay {
        AdvancedWellformed(s1.icebergs);
      }
      assert Valid(s2);
      var s3 := SpawnStep(s2, now, row, variant);
      assert InBand(Spawned(row, variant));
      assert Valid(s3);
      ResolveInBounds(s3.icebergs, s3.single, SingleSpawnCol);
      ResolveInBounds(s3.icebergs, s3.p1, Player1SpawnCol);
      ResolveInBounds(s3.icebergs, s3.p2, Player2SpawnCol);
    }
  }

  /**
   * Icebergs: a move step advances them once ICEBERG_MOVE_DELAY has passed
   * and never adds any; a spawn happens exactly when ICEBERG_SPAWN_DELAY has
   * passed and fewer than ICEBERG_MAX_COUNT are afloat, and appends the
   * drawn iceberg in column 0; a step that is not due changes nothing;
   * collisions remove none.
   */
  lemma IcebergSteps(s: Snapshot, twoPlayer: bool, now: int, row: int, variant: int)
    ensures |MoveStep(s, now).icebergs| <= |s.icebergs|
    ensures SpawnStep(s, now, row, variant).icebergs != s.icebergs ==>
      now - s.lastIcebergSpawnTime >= IcebergSpawnDelay && |s.icebergs| < IcebergMaxCount
      && SpawnStep(s, now, row, variant).icebergs == s.icebergs + [Iceberg(row, 0, variant)]
    ensures |SpawnStep(s, now, row, variant).icebergs| <= |s.icebergs| + 1
    ensures now - s.lastIcebergMoveTime >= IcebergMoveDelay ==>
      MoveStep(s, now).icebergs == Advanced(s.icebergs) && MoveStep(s, now).lastIcebergMoveTime == now
    ensures now - s.lastIcebergMoveTime < IcebergMoveDelay ==> MoveStep(s, now) == s
    ensures now - s.lastIcebergSpawnTime >= IcebergSpawnDelay && |s.icebergs| < IcebergMaxCount ==>
      SpawnStep(s, now, row, variant).icebergs == s.icebergs + [Iceberg(row, 0, variant)]
      && SpawnStep(s, now, row, variant).lastIcebergSpawnTime == now
    ensures !(now - s.lastIcebergSpawnTime >= IcebergSpawnDelay && |s.icebergs| < IcebergMaxCount) ==>
      SpawnStep(s, now, row, variant) == s
    ensures CollisionStep(s, twoPlayer).icebergs == s.icebergs
    ensures CollisionStep(s, twoPlayer).single.saved == s.single.saved
    ensures CollisionStep(s, twoPlayer).p1.saved == s.p1.saved && CollisionStep(s, twoPlayer).p2.saved == s.p2.saved
  {
  }

  /**
   * When the time runs out the round is over and every boat's desired
   * direction is cleared, so no boat steps; the score stays; and every
   * later tick is a no-op.
   */
  lemma UpdateExpiry(s: Snapshot, twoPlayer: bool, now: int, row: int, variant: int)
    requires Running(s.game) && Remaining(s.game, now) <= 0
    ensures var r := Update(s, false, twoPlayer, now, row, variant);
      && r.game == s.game.(gameOver := true)
      && r.single.desiredDx == 0 && r.single.desiredDy == 0
      && r.p1.desiredDx == 0 && r.p1.desiredDy == 0
      && r.p2.desiredDx == 0 && r.p2.desiredDy == 0
      && r.single.saved == s.single.saved && r.p1.saved == s.p1.saved && r.p2.saved == s.p2.saved
      && (forall now', row', variant' :: Update(r, false, twoPlayer, now', row', variant') == r)
  {
  }

  /**
   * A tick touches the round state only to end it, never changes the mode,
   * and adds at most one rescue to each boat.
   */
  lemma UpdateKeepsRoundAndScores(s: Snapshot, guest: bool, twoPlayer: bool, now: int, row: int, variant: int)
    ensures var r := Update(s, guest, twoPlayer, now, row, variant);
      && r.mode == s.mode
      && r.game == s.game.(gameOver := r.game.gameOver)
      && (r.game.gameOver != s.game.gameOver ==> Running(s.game) && Remaining(s.game, now) <= 0)
      && (r.single.saved == s.single.saved || r.single.saved == s.single.saved + 1)
      && (r.p1.saved == s.p1.saved || r.p1.saved == s.p1.saved + 1)
      && (r.p2.saved == s.p2.saved || r.p2.saved == s.p2.saved + 1)
  {
    if !guest && Running(s.game) {
      var t := TimerStep(s, now);
      var m := MovementStep(t, twoPlayer, now);
      TickScore(t.single, now);
      TickScore(t.p1, now);
      TickScore(t.p2, now);
      assert m.single.saved == s.single.saved || m.single.saved == s.single.saved + 1;
      assert m.p1.saved == s.p1.saved || m.p1.saved == s.p1.saved + 1;
      assert m.p2.saved == s.p2.saved || m.p2.saved == s.p2.saved + 1;
      var k := SpawnStep(MoveStep(m, now), now, row, variant);
      IcebergSteps(k, twoPlayer, now, row, variant);
    }
  }

  // ----- startGame -----

  /** resetCommonState, then the reset of the boats that play, then the new round. */
  function Start(s: Snapshot, twoPlayer: bool, now: int): (r: Snapshot)
    ensures Running(r.game) && r.icebergs == [] && r.mode == s.mode
    ensures Valid(s) ==> Valid(r)
  {
    var common := s.(icebergs := [], lastIcebergMoveTime := 0, lastIcebergSpawnTime := 0,
                     game := s.game.(gameOver := false, paused := false, pauseAccumulated := 0, pauseStartedAt := None));
    var reset := if twoPlayer then common.(p1 := Fresh(Player1SpawnCol), p2 := Fresh(Player2SpawnCol))
                 else common.(single := Fresh(SingleSpawnCol));
    reset.(game := reset.game.(gameStarted := true, roundStartTime := now))
  }

  /**
   * A new round runs with the full 60 seconds, no icebergs and both iceberg
   * timers at zero, and the
   * playing boats fresh at their spawn cells; the boats of the other mode
   * and the mode itself are left alone.
   */
  lemma StartBeginsRound(s: Snapshot, twoPlayer: bool, now: int)
    ensures var r := Start(s, twoPlayer, now);
      && Running(r.game) && r.game.pauseStartedAt.None?
      && Remaining(r.game, now) == RoundDurationMs
      && r.icebergs == [] && r.lastIcebergSpawnTime == 0 && r.lastIcebergMoveTime == 0 && r.mode == s.mode
      && (twoPlayer ==> r.p1 == Fresh(Player1SpawnCol) && r.p2 == Fresh(Player2SpawnCol) && r.single == s.single)
      && (!twoPlayer ==> r.single == Fresh(SingleSpawnCol) && r.p1 == s.p1 && r.p2 == s.p2)
  {
  }
}
