/**
 * Keyboard to direction: getDirectionFromAnyKey treats the WASD keys (by
 * physical `code`) and the arrow keys (by `key`) alike.
 */
module Keys {
  import opened Options

  datatype Dir = Dir(dx: int, dy: int)

  const Up: Dir := Dir(0, -1)
  const Down: Dir := Dir(0, 1)
  const Left: Dir := Dir(-1, 0)
  const Right: Dir := Dir(1, 0)

  /** The WASD table of the single-player and two-player key handlers. */
  function CodeDir(code: string): Option<Dir> {
    if code == "KeyW" then Some(Up)
    else if code == "KeyS" then Some(Down)
    else if code == "KeyA" then Some(Left)
    else if code == "KeyD" then Some(Right)
    else None
  }

  /** The arrow table of the same handlers. */
  function KeyDir(key: string): Option<Dir> {
    if key == "ArrowUp" then Some(Up)
    else if key == "ArrowDown" then Some(Down)
    else if key == "ArrowLeft" then Some(Left)
    else if key == "ArrowRight" then Some(Right)
    else None
  }

  /** getDirectionFromAnyKey: up, down, left, right tried in that order. */
  function DirectionFromAnyKey(code: string, key: string): (r: Option<Dir>)
    ensures r.Some? <==> CodeDir(code).Some? || KeyDir(key).Some?
    ensures r.Some? ==> r.value == Up || r.value == Down || r.value == Left || r.value == Right
  {
    if code == "KeyW" || key == "ArrowUp" then Some(Up)
    else if code == "KeyS" || key == "ArrowDown" then Some(Down)
    else if code == "KeyA" || key == "ArrowLeft" then Some(Left)
    else if code == "KeyD" || key == "ArrowRight" then Some(Right)
    else None
  }

  /**
   * The combined mapping agrees with both tables: a WASD key alone, an
   * arrow alone, or both naming the same direction, give that direction.
   */
  lemma DirectionAgreesWithTables(code: string, key: string)
    ensures KeyDir(key).None? ==> DirectionFromAnyKey(code, key) == CodeDir(code)
    ensures CodeDir(code).None? ==> DirectionFromAnyKey(code, key) == KeyDir(key)
    ensures CodeDir(code) == KeyDir(key) ==> DirectionFromAnyKey(code, key) == CodeDir(code)
  {
  }
}
