/**
 * The iceberg manager: icebergs drift one column to the right every
 * ICEBERG_MOVE_DELAY and leave on the far side; a new one appears in column 0
 * every ICEBERG_SPAWN_DELAY while fewer than ICEBERG_MAX_COUNT are afloat; a
 * boat on an iceberg's cell has collided.
 */
module Icebergs {
  import opened Movement

  const IcebergMoveDelay: int := 500
  const IcebergSpawnDelay: int := 1200
  const IcebergMaxCount: int := 10
  /** Icebergs keep off the rows next to the pole and the continent. */
  const IcebergMinRow: int := 2
  const IcebergMaxRow: int := GridRows - 3
  /** The number of picture variants, `Math.floor(Math.random() * 3)`. */
  const IcebergVariants: int := 3

  datatype Iceberg = Iceberg(row: int, col: int, variant: int)

  /** The for-loop of moveIcebergs: every iceberg one column to the right. */
  function Shifted(ices: seq<Iceberg>): (r: seq<Iceberg>)
    ensures |r| == |ices|
    ensures forall i :: 0 <= i < |ices| ==> r[i] == ices[i].(col := ices[i].col + 1)
  {
    seq(|ices|, i requires 0 <= i < |ices| => ices[i].(col := ices[i].col + 1))
  }

  /** `icebergs.filter((iceberg) => iceberg.col < GRID_COLS)`. */
  function OnBoard(ices: seq<Iceberg>): (r: seq<Iceberg>)
    ensures |r| <= |ices|
    ensures forall x :: x in r <==> x in ices && x.col < GridCols
  {
    if ices == [] then []
    else (if ices[0].col < GridCols then [ices[0]] else []) + OnBoard(ices[1..])
  }

  /** The filter keeps order: filtering a concatenation filters each part in place. */
  lemma {:induction false} OnBoardConcat(a: seq<Iceberg>, b: seq<Iceberg>)
    ensures OnBoard(a + b) == OnBoard(a) + OnBoard(b)
  {
    if a != [] {
      assert (a + b)[0] == a[0];
      assert (a + b)[1..] == a[1..] + b;
      OnBoardConcat(a[1..], b);
    } else {
      assert a + b == b;
    }
  }

  /** The whole of moveIcebergs. */
  function Advanced(ices: seq<Iceberg>): (r: seq<Iceberg>)
    ensures |r| <= |ices|
    ensures forall x :: x in r ==> x.col < GridCols
  {
    OnBoard(Shifted(ices))
  }

  /**
   * After a move step an iceberg is afloat exactly when it was afloat one
   * column to the left and its new column is still on the board.
   */
  lemma AdvancedMembers(ices: seq<Iceberg>, x: Iceberg)
    ensures x in Advanced(ices) <==>
      x.col < GridCols && x.(col := x.col - 1) in ices
  {
    var s := Shifted(ices);
    if x.(col := x.col - 1) in ices {
      var i :| 0 <= i < |ices| && ices[i] == x.(col := x.col - 1);
      assert s[i] == x;
    }
    if x in s {
      var i :| 0 <= i < |s| && s[i] == x;
      assert ices[i] == x.(col := x.col - 1);
    }
  }

  /** The band every spawned iceberg lies in. */
  predicate InBand(x: Iceberg) {
    IcebergMinRow <= x.row <= IcebergMaxRow && 0 <= x.col < GridCols && 0 <= x.variant < IcebergVariants
  }

  /** At most ICEBERG_MAX_COUNT icebergs, all inside the band. */
  predicate Wellformed(ices: seq<Iceberg>) {
    |ices| <= IcebergMaxCount && forall x :: x in ices ==> InBand(x)
  }

  lemma AdvancedWellformed(ices: seq<Iceberg>)
    requires Wellformed(ices)
    ensures Wellformed(Advanced(ices))
  {
    forall x | x in Advanced(ices) ensures InBand(x) {
      AdvancedMembers(ices, x);
      assert InBand(x.(col := x.col - 1));
    }
  }

  /** The spawned iceberg: column 0, a row in the band and a variant. */
  function Spawned(row: int, variant: int): Iceberg {
    Iceberg(row, 0, variant)
  }

  /** Some iceberg occupies cell (row, col). */
  predicate Hit(ices: seq<Iceberg>, row: int, col: int) {
    exists i :: 0 <= i < |ices| && ices[i].row == row && ices[i].col == col
  }

  /** The outcome of the collision check for one boat. */
  function Resolve(ices: seq<Iceberg>, a: Actor, spawnCol: int): (r: Actor)
    ensures !Hit(ices, a.row, a.col) ==> r == a
    ensures Hit(ices, a.row, a.col) ==>
      !r.carrying && r.col == spawnCol && r.row == SpawnRow && r.desiredDx == 0 && r.desiredDy == 0
    ensures r.saved == a.saved
  {
    if Hit(ices, a.row, a.col) then Collide(a, spawnCol) else a
  }

  lemma ResolveInBounds(ices: seq<Iceberg>, a: Actor, spawnCol: int)
    requires InBounds(a) && 0 <= spawnCol < GridCols
    ensures InBounds(Resolve(ices, a, spawnCol))
    ensures Resolve(ices, a, spawnCol).saved == a.saved
  {
  }
}
