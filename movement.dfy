/**
 * One boat ("actor") on the 10 x 12 grid: the grid step with its pole and
 * continent events, the pickup/drop-off state machine, the per-actor movement
 * gate (latch on a direction change, then one step per MOVE_DELAY), the
 * iceberg collision reset and the round-start reset.
 *
 * Row 0 is the north pole, row GridRows - 1 the continent; a boat only ever
 * sails the rows 1 .. GridRows - 2 and reaches the two shores as events.
 */
module Movement {

  const GridCols: int := 10
  const GridRows: int := 12
  /** A step at most once per 200 ms. */
  const MoveDelay: int := 200
  /** Row 10, the water row just above the continent, where every boat starts. */
  const SpawnRow: int := GridRows - 2
  /** Spawn columns: `Math.floor(GRID_COLS / 2)` alone, 3 and 6 for two players. */
  const SingleSpawnCol: int := GridCols / 2
  const Player1SpawnCol: int := 3
  const Player2SpawnCol: int := 6

  /**
   * The per-player state: position, facing (the last nonzero input, for
   * drawing), desired direction, the step latch (last step direction and the
   * time of the last latch or step), the carried bear and the rescue count.
   */
  datatype Actor = Actor(
    col: int, row: int,
    facingDx: int, facingDy: int,
    desiredDx: int, desiredDy: int,
    lastMoveTime: int,
    lastStepDx: int, lastStepDy: int,
    carrying: bool,
    saved: int)

  predicate InBounds(a: Actor) {
    0 <= a.col < GridCols && 1 <= a.row <= SpawnRow
  }

  /** The state every reset gives a boat whose spawn column is `spawnCol`. */
  function Fresh(spawnCol: int): (r: Actor)
    ensures 0 <= spawnCol < GridCols ==> InBounds(r)
    ensures r.col == spawnCol && r.row == SpawnRow && r.facingDx == 0 && r.facingDy == -1
    ensures !r.carrying && r.saved == 0
    ensures forall now :: Tick(r, now) == r
  {
    Actor(spawnCol, SpawnRow, 0, -1, 0, 0, 0, 0, 0, false, 0)
  }

  /** Controls: everything of an actor except position and cargo. */
  predicate SameControls(a: Actor, b: Actor) {
    a.facingDx == b.facingDx && a.facingDy == b.facingDy
    && a.desiredDx == b.desiredDx && a.desiredDy == b.desiredDy
    && a.lastMoveTime == b.lastMoveTime
    && a.lastStepDx == b.lastStepDx && a.lastStepDy == b.lastStepDy
  }

  // ----- direction input -----

  /** setDirection*: the desired direction, and the facing for a nonzero one. */
  function SetDesired(a: Actor, dx: int, dy: int): (r: Actor)
    ensures r.desiredDx == dx && r.desiredDy == dy
    ensures dx != 0 || dy != 0 ==> r.facingDx == dx && r.facingDy == dy
    ensures dx == 0 && dy == 0 ==> r.facingDx == a.facingDx && r.facingDy == a.facingDy
    ensures r.col == a.col && r.row == a.row && r.carrying == a.carrying && r.saved == a.saved
    ensures r.lastMoveTime == a.lastMoveTime && r.lastStepDx == a.lastStepDx && r.lastStepDy == a.lastStepDy
  {
    var b := a.(desiredDx := dx, desiredDy := dy);
    if dx != 0 || dy != 0 then b.(facingDx := dx, facingDy := dy) else b
  }

  /** clearDirection*: stop wanting to move; the facing stays. */
  function ClearDesired(a: Actor): (r: Actor)
    ensures r == SetDesired(a, 0, 0)
    ensures forall now :: Tick(r, now) == r
  {
    a.(desiredDx := 0, desiredDy := 0)
  }

  // ----- pickup / drop-off -----

  /** Reaching the pole boards a bear; with one on board nothing changes. */
  function ReachPole(a: Actor): (r: Actor)
    ensures r.carrying
    ensures a.carrying ==> r == a
    ensures r.(carrying := a.carrying) == a
  {
    if !a.carrying then a.(carrying := true) else a
  }

  /** Reaching the continent with a bear lands it and counts one rescue. */
  function ReachContinent(a: Actor): (r: Actor)
    ensures !r.carrying
    ensures r.saved == if a.carrying then a.saved + 1 else a.saved
    ensures r.(carrying := a.carrying, saved := a.saved) == a
  {
    if a.carrying then a.(carrying := false, saved := a.saved + 1) else a
  }

  // ----- grid step -----

  /**
   * movePlayer / movePlayerFor: a column move happens only when it stays on
   * the board; a row move stops at row 1 and row GridRows - 2, where moving on
   * fires the pole or continent event instead.
   */
  function Move(a: Actor, dx: int, dy: int): (r: Actor)
    ensures InBounds(a) ==> InBounds(r)
    ensures 0 <= r.col < GridCols || r.col == a.col
    ensures r.col == a.col || r.col == a.col + dx
    ensures r.row == a.row || (dy < 0 && r.row == a.row - 1 >= 1) || (dy > 0 && r.row == a.row + 1 <= SpawnRow)
    ensures 0 <= a.col + dx < GridCols ==> r.col == a.col + dx
    ensures !(0 <= a.col + dx < GridCols) ==> r.col == a.col
    ensures dy < 0 && a.row > 1 ==> r.row == a.row - 1
    ensures dy > 0 && a.row < SpawnRow ==> r.row == a.row + 1
    ensures dy == 0 ==> r.row == a.row
    ensures SameControls(a, r)
  {
    var newCol := a.col + dx;
    var b := if 0 <= newCol < GridCols then a.(col := newCol) else a;
    if dy < 0 then
      if b.row > 1 then b.(row := b.row - 1)
      else if b.row == 1 then ReachPole(b)
      else b
    else if dy > 0 then
      if b.row < SpawnRow then b.(row := b.row + 1)
      else if b.row == SpawnRow then ReachContinent(b)
      else b
    else b
  }

  /**
   * The pickup/drop-off machine as seen through one step: a bear is boarded
   * only by moving up from row 1, landed only by moving down from row
   * GridRows - 2 with a bear aboard, and the rescue count changes only then,
   * by exactly one.
   */
  lemma PickupDropoff(a: Actor, dx: int, dy: int)
    ensures var r := Move(a, dx, dy);
      && (r.carrying && !a.carrying <==> dy < 0 && a.row == 1 && !a.carrying)
      && (!r.carrying && a.carrying <==> dy > 0 && a.row == SpawnRow && a.carrying)
      && (r.saved != a.saved <==> dy > 0 && a.row == SpawnRow && a.carrying)
      && (r.saved == a.saved || r.saved == a.saved + 1)
      && (dy < 0 && a.row == 1 ==> r.row == 1 && r.carrying)
      && (dy > 0 && a.row == SpawnRow ==> r.row == SpawnRow && !r.carrying)
  {
  }

  // ----- movement gate -----

  /** The gate lets a step through on this tick. */
  predicate StepDue(a: Actor, now: int) {
    (a.desiredDx != 0 || a.desiredDy != 0)
    && a.desiredDx == a.lastStepDx && a.desiredDy == a.lastStepDy
    && now - a.lastMoveTime >= MoveDelay
  }

  /** The desired direction differs from the latched one: this tick only latches. */
  predicate Latches(a: Actor) {
    (a.desiredDx != 0 || a.desiredDy != 0)
    && (a.desiredDx != a.lastStepDx || a.desiredDy != a.lastStepDy)
  }

  /** handleMovementSingle / handleMovementForPlayer for one actor at time `now`. */
  function Tick(a: Actor, now: int): (r: Actor)
    ensures r.desiredDx == a.desiredDx && r.desiredDy == a.desiredDy
    ensures r.facingDx == a.facingDx && r.facingDy == a.facingDy
    ensures a.desiredDx != 0 || a.desiredDy != 0 ==> r.lastStepDx == a.desiredDx && r.lastStepDy == a.desiredDy
    ensures r.lastMoveTime == a.lastMoveTime || r.lastMoveTime == now
    ensures r.col != a.col || r.row != a.row ==> r.lastMoveTime == now
  {
    if a.desiredDx == 0 && a.desiredDy == 0 then a
    else if a.desiredDx != a.lastStepDx || a.desiredDy != a.lastStepDy then
      a.(lastStepDx := a.desiredDx, lastStepDy := a.desiredDy, lastMoveTime := now)
    else if now - a.lastMoveTime < MoveDelay then a
    else Move(a, a.desiredDx, a.desiredDy).(lastMoveTime := now)
  }

  /**
   * The gate: no desire, no change; a new direction is latched (with the time)
   * and nothing moves; with the direction latched, a step is taken once
   * MoveDelay has passed since the last latch or step, and restarts the wait.
   */
  lemma MovementGate(a: Actor, now: int)
    ensures a.desiredDx == 0 && a.desiredDy == 0 ==> Tick(a, now) == a
    ensures Latches(a) ==>
      Tick(a, now) == a.(lastStepDx := a.desiredDx, lastStepDy := a.desiredDy, lastMoveTime := now)
    ensures StepDue(a, now) ==> Tick(a, now) == Move(a, a.desiredDx, a.desiredDy).(lastMoveTime := now)
    ensures !StepDue(a, now) && !Latches(a) ==> Tick(a, now) == a
    ensures !StepDue(a, now) ==>
      Tick(a, now).col == a.col && Tick(a, now).row == a.row
      && Tick(a, now).carrying == a.carrying && Tick(a, now).saved == a.saved
  {
  }

  /** A tick adds at most one rescue. */
  lemma TickScore(a: Actor, now: int)
    ensures Tick(a, now).saved == a.saved || Tick(a, now).saved == a.saved + 1
  {
    PickupDropoff(a, a.desiredDx, a.desiredDy);
  }

  lemma TickInBounds(a: Actor, now: int)
    requires InBounds(a)
    ensures InBounds(Tick(a, now))
  {
  }

  /** The times of the ticks at `ts`, with no other input in between, on which a step went through. */
  function StepTimes(a: Actor, ts: seq<int>): seq<int>
    decreases |ts|
  {
    if ts == [] then []
    else (if StepDue(a, ts[0]) then [ts[0]] else []) + StepTimes(Tick(a, ts[0]), ts[1..])
  }

  predicate NonDecreasing(ts: seq<int>) {
    forall i, j :: 0 <= i < j < |ts| ==> ts[i] <= ts[j]
  }

  /**
   * With the clock never running backwards, accepted steps are at least
   * MoveDelay apart, and the first one comes at least MoveDelay after the
   * actor's last latch or step.
   */
  lemma {:induction false} StepsAreSpaced(a: Actor, ts: seq<int>)
    requires NonDecreasing(ts)
    requires ts != [] ==> a.lastMoveTime <= ts[0]
    ensures forall k :: 0 <= k < |StepTimes(a, ts)| ==> StepTimes(a, ts)[k] >= a.lastMoveTime + MoveDelay
    ensures forall k :: 0 < k < |StepTimes(a, ts)| ==>
      StepTimes(a, ts)[k] >= StepTimes(a, ts)[k - 1] + MoveDelay
    decreases |ts|
  {
    if ts != [] {
      var b := Tick(a, ts[0]);
      var rest := ts[1..];
      assert NonDecreasing(rest);
      assert b.lastMoveTime == a.lastMoveTime || b.lastMoveTime == ts[0];
      StepsAreSpaced(b, rest);
      var head := if StepDue(a, ts[0]) then [ts[0]] else [];
      assert StepTimes(a, ts) == head + StepTimes(b, rest);
      if StepDue(a, ts[0]) {
        assert b.lastMoveTime == ts[0];
      }
    }
  }

  /**
   * A change of direction costs one extra MoveDelay: after the tick at `t0`
   * that latches the new direction, no step goes through before
   * `t0 + MoveDelay`, and one goes through exactly then.
   */
  lemma SettleDelay(a: Actor, t0: int, ts: seq<int>)
    requires Latches(a)
    requires NonDecreasing([t0] + ts)
    ensures StepTimes(a, [t0] + ts) == StepTimes(Tick(a, t0), ts)
    ensures forall k :: 0 <= k < |StepTimes(a, [t0] + ts)| ==> StepTimes(a, [t0] + ts)[k] >= t0 + MoveDelay
    ensures StepDue(Tick(a, t0), t0 + MoveDelay)
  {
    assert ([t0] + ts)[1..] == ts;
    assert NonDecreasing(ts) by {
      forall i, j | 0 <= i < j < |ts| ensures ts[i] <= ts[j] {
        assert ts[i] == ([t0] + ts)[i + 1] && ts[j] == ([t0] + ts)[j + 1];
      }
    }
    if ts != [] {
      assert ts[0] == ([t0] + ts)[1] && t0 == ([t0] + ts)[0];
    }
    assert Tick(a, t0).lastMoveTime == t0;
    StepsAreSpaced(Tick(a, t0), ts);
  }

  // ----- repeated steps: a rescue trip -----

  /** `k` accepted steps in the same direction. */
  function Steps(a: Actor, dx: int, dy: int, k: nat): Actor
    decreases k
  {
    if k == 0 then a else Steps(Move(a, dx, dy), dx, dy, k - 1)
  }

  lemma {:induction false} SailUp(a: Actor, k: nat)
    requires k < a.row
    ensures Steps(a, 0, -1, k) == a.(row := a.row - k)
    decreases k
  {
    if k > 0 {
      assert Move(a, 0, -1) == a.(row := a.row - 1);
      SailUp(a.(row := a.row - 1), k - 1);
    }
  }

  lemma {:induction false} SailDown(a: Actor, k: nat)
    requires a.row + k <= SpawnRow
    ensures Steps(a, 0, 1, k) == a.(row := a.row + k)
    decreases k
  {
    if k > 0 {
      assert Move(a, 0, 1) == a.(row := a.row + 1);
      SailDown(a.(row := a.row + 1), k - 1);
    }
  }

  lemma {:induction false} StepsSplit(a: Actor, dx: int, dy: int, k: nat, m: nat)
    ensures Steps(a, dx, dy, k + m) == Steps(Steps(a, dx, dy, k), dx, dy, m)
    decreases k
  {
    if k > 0 {
      StepsSplit(Move(a, dx, dy), dx, dy, k - 1, m);
    }
  }

  /** One step more is one Move after the others. */
  lemma StepsLast(a: Actor, dx: int, dy: int, k: nat)
    ensures Steps(a, dx, dy, k + 1) == Move(Steps(a, dx, dy, k), dx, dy)
  {
    StepsSplit(a, dx, dy, k, 1);
  }

  /** Moving up from row 1 without a bear boards one and stays put. */
  lemma BoardAtPole(a: Actor)
    requires a.row == 1 && !a.carrying
    ensures Move(a, 0, -1) == a.(carrying := true)
  {
  }

  /** Moving down from the spawn row with a bear lands it and stays put. */
  lemma LandAtContinent(a: Actor)
    requires a.row == SpawnRow && a.carrying
    ensures Move(a, 0, 1) == a.(carrying := false, saved := a.saved + 1)
  {
  }

  /** From the spawn row without a bear: nine steps up reach row 1, the tenth boards a bear there. */
  lemma SailToPole(a: Actor)
    requires a.row == SpawnRow && !a.carrying
    ensures Steps(a, 0, -1, 9) == a.(row := 1)
    ensures Steps(a, 0, -1, 10) == a.(row := 1, carrying := true)
  {
    SailUp(a, 9);
    StepsLast(a, 0, -1, 9);
    BoardAtPole(a.(row := 1));
  }

  /** From row 1 with a bear: nine steps down reach the spawn row, the tenth lands the bear there. */
  lemma SailHome(a: Actor)
    requires a.row == 1 && a.carrying
    ensures Steps(a, 0, 1, 9) == a.(row := SpawnRow)
    ensures Steps(a, 0, 1, 10) == a.(row := SpawnRow, carrying := false, saved := a.saved + 1)
  {
    SailDown(a, 9);
    StepsLast(a, 0, 1, 9);
    LandAtContinent(a.(row := SpawnRow));
  }

  /**
   * A rescue trip from the spawn row: nine steps up reach row 1 without a
   * bear, the tenth boards one at the pole; nine steps down reach row
   * GridRows - 2 and the tenth lands the bear, one more rescue.
   */
  lemma RescueTrip(a: Actor)
    requires a.row == SpawnRow && !a.carrying
    ensures Steps(a, 0, -1, 9) == a.(row := 1)
    ensures Steps(a, 0, -1, 10) == a.(row := 1, carrying := true)
    ensures Steps(Steps(a, 0, -1, 10), 0, 1, 9) == a.(carrying := true)
    ensures Steps(Steps(a, 0, -1, 10), 0, 1, 10) == a.(saved := a.saved + 1)
  {
    SailToPole(a);
    SailHome(a.(row := 1, carrying := true));
  }

  // ----- collision and reset -----

  /**
   * handleIcebergCollision*: the bear is lost, the boat goes back to its
   * spawn cell facing up and stops; the rescue count and the step latch stay.
   */
  function Collide(a: Actor, spawnCol: int): (r: Actor)
    ensures 0 <= spawnCol < GridCols ==> InBounds(r)
    ensures forall now :: Tick(r, now) == r
    ensures !r.carrying && r.saved == a.saved
  {
    a.(carrying := false, col := spawnCol, row := SpawnRow, facingDx := 0, facingDy := -1,
       desiredDx := 0, desiredDy := 0)
  }

  lemma CollideResets(a: Actor, spawnCol: int)
    ensures var r := Collide(a, spawnCol);
      && !r.carrying && r.col == spawnCol && r.row == SpawnRow
      && r.facingDx == 0 && r.facingDy == -1 && r.desiredDx == 0 && r.desiredDy == 0
      && r.saved == a.saved && r.lastStepDx == a.lastStepDx && r.lastStepDy == a.lastStepDy
      && r.lastMoveTime == a.lastMoveTime
    ensures Collide(Collide(a, spawnCol), spawnCol) == Collide(a, spawnCol)
  {
  }
}
