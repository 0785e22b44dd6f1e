/**
 * Host-to-guest replication: the snapshot the host publishes
 * (buildNetState), the guest's type-checked field-by-field overwrite
 * (applyNetState), and the host's reading of the guest's published input.
 */
module Replication {
  import opened Options
  import opened Decimal
  import opened Json
  import opened Movement
  import opened Icebergs
  import opened RoundClock
  import opened Keys
  import opened World

  // ----- buildNetState -----

  function EncodeRound(g: Round): (r: JsonValue)
    ensures r.Obj?
    ensures Get(Some(r), "pauseStartedAt") == Some(Null) <==> g.pauseStartedAt.None?
  {
    Obj(map[
      "gameStarted" := Bool(g.gameStarted),
      "gameOver" := Bool(g.gameOver),
      "paused" := Bool(g.paused),
      "roundStartTime" := Num(g.roundStartTime),
      "pauseAccumulated" := Num(g.pauseAccumulated),
      "pauseStartedAt" := match g.pauseStartedAt case Some(t) => Num(t) case None => Null])
  }

  /** The fields every boat publishes besides its position. */
  function ActorFields(a: Actor): (r: map<string, JsonValue>)
    ensures "col" !in r && "row" !in r && "player" !in r
    ensures "carryingBear" in r && r["carryingBear"] == Bool(a.carrying)
  {
    map[
      "facingDx" := Num(a.facingDx), "facingDy" := Num(a.facingDy),
      "desiredDx" := Num(a.desiredDx), "desiredDy" := Num(a.desiredDy),
      "lastMoveTime" := Num(a.lastMoveTime),
      "lastStepDx" := Num(a.lastStepDx), "lastStepDy" := Num(a.lastStepDy),
      "carryingBear" := Bool(a.carrying), "savedBears" := Num(a.saved)]
  }

  /** The single-player boat nests its position under `player`. */
  function EncodeSingle(a: Actor): (r: JsonValue)
    ensures r.Obj? && Get(Get(Some(r), "player"), "col") == Some(Num(a.col))
    ensures Get(Get(Some(r), "player"), "row") == Some(Num(a.row))
  {
    Obj(ActorFields(a)["player" := Obj(map["col" := Num(a.col), "row" := Num(a.row)])])
  }

  /** A two-player boat keeps its position beside the other fields. */
  function EncodePlayer(a: Actor): (r: JsonValue)
    ensures r.Obj? && Get(Some(r), "col") == Some(Num(a.col)) && Get(Some(r), "row") == Some(Num(a.row))
  {
    Obj(ActorFields(a)["col" := Num(a.col)]["row" := Num(a.row)])
  }

  function EncodeIceberg(x: Iceberg): (r: JsonValue)
    ensures Decodes(r, x)
  {
    Obj(map["row" := Num(x.row), "col" := Num(x.col), "variant" := Num(x.variant)])
  }

  function EncodeIcebergs(ices: seq<Iceberg>): (r: seq<JsonValue>)
    ensures |r| == |ices|
  {
    if ices == [] then [] else [EncodeIceberg(ices[0])] + EncodeIcebergs(ices[1..])
  }

  /** buildNetState: the whole replicated state as one object. */
  function BuildNetState(s: Snapshot): (r: JsonValue)
    ensures r.Obj? && r.fields.Keys == {"mode", "game", "single", "local2", "icebergs", "icebergTiming"}
  {
    Obj(map[
      "mode" := Str(s.mode),
      "game" := EncodeRound(s.game),
      "single" := EncodeSingle(s.single),
      "local2" := Obj(map["player1" := EncodePlayer(s.p1), "player2" := EncodePlayer(s.p2)]),
      "icebergs" := Arr(EncodeIcebergs(s.icebergs)),
      "icebergTiming" := Obj(map[
        "lastIcebergMoveTime" := Num(s.lastIcebergMoveTime),
        "lastIcebergSpawnTime" := Num(s.lastIcebergSpawnTime)])])
  }

  // ----- applyNetState -----

  /** `typeof v === "number" ? v : d`. */
  function NumOr(v: Option<JsonValue>, d: int): int {
    match v
    case Some(Num(n)) => n
    case _ => d
  }

  /** `typeof v === "boolean" ? v : d`. */
  function BoolOr(v: Option<JsonValue>, d: bool): bool {
    match v
    case Some(Bool(b)) => b
    case _ => d
  }

  /** `typeof v === "string" ? v : d`. */
  function StrOr(v: Option<JsonValue>, d: string): string {
    match v
    case Some(Str(x)) => x
    case _ => d
  }

  /** `v === null || typeof v === "number" ? v : d`, with None for null. */
  function PauseOr(v: Option<JsonValue>, d: Option<int>): Option<int> {
    match v
    case Some(Null) => None
    case Some(Num(n)) => Some(n)
    case _ => d
  }

  /** The `state.game` block; a value that is not an object has none of the fields. */
  function ApplyRound(g: Round, v: Option<JsonValue>): (r: Round)
    ensures !(v.Some? && v.value.Obj?) ==> r == g
    ensures Get(v, "pauseStartedAt") == Some(Null) ==> r.pauseStartedAt == None
    ensures Get(v, "roundStartTime") == None ==> r.roundStartTime == g.roundStartTime
  {
    g.(gameStarted := BoolOr(Get(v, "gameStarted"), g.gameStarted),
       gameOver := BoolOr(Get(v, "gameOver"), g.gameOver),
       paused := BoolOr(Get(v, "paused"), g.paused),
       roundStartTime := NumOr(Get(v, "roundStartTime"), g.roundStartTime),
       pauseAccumulated := NumOr(Get(v, "pauseAccumulated"), g.pauseAccumulated),
       pauseStartedAt := PauseOr(Get(v, "pauseStartedAt"), g.pauseStartedAt))
  }

  /** The fields common to the single-player block and each two-player block. */
  function ApplyActorFields(a: Actor, v: Option<JsonValue>): (r: Actor)
    ensures !(v.Some? && v.value.Obj?) ==> r == a
    ensures r.col == a.col && r.row == a.row
  {
    a.(facingDx := NumOr(Get(v, "facingDx"), a.facingDx),
       facingDy := NumOr(Get(v, "facingDy"), a.facingDy),
       desiredDx := NumOr(Get(v, "desiredDx"), a.desiredDx),
       desiredDy := NumOr(Get(v, "desiredDy"), a.desiredDy),
       lastMoveTime := NumOr(Get(v, "lastMoveTime"), a.lastMoveTime),
       lastStepDx := NumOr(Get(v, "lastStepDx"), a.lastStepDx),
       lastStepDy := NumOr(Get(v, "lastStepDy"), a.lastStepDy),
       carrying := BoolOr(Get(v, "carryingBear"), a.carrying),
       saved := NumOr(Get(v, "savedBears"), a.saved))
  }

  /** The `state.single` block: position under `player`. */
  function ApplySingle(a: Actor, v: Option<JsonValue>): (r: Actor)
    ensures !(v.Some? && v.value.Obj?) ==> r == a
    ensures Get(Get(v, "player"), "col") == None ==> r.col == a.col
    ensures Get(Get(v, "player"), "row") == None ==> r.row == a.row
  {
    var p := Get(v, "player");
    ApplyActorFields(a.(col := NumOr(Get(p, "col"), a.col), row := NumOr(Get(p, "row"), a.row)), v)
  }

  /** A `state.local2.playerN` block. */
  function ApplyPlayer(a: Actor, v: Option<JsonValue>): (r: Actor)
    ensures !(v.Some? && v.value.Obj?) ==> r == a
    ensures Get(v, "col") == None ==> r.col == a.col
    ensures Get(v, "row") == None ==> r.row == a.row
  {
    ApplyActorFields(a.(col := NumOr(Get(v, "col"), a.col), row := NumOr(Get(v, "row"), a.row)), v)
  }

  /** Entry `v` carries the iceberg `x`: numeric row, col and variant equal to its own. */
  predicate Decodes(v: JsonValue, x: Iceberg) {
    Get(Some(v), "row") == Some(Num(x.row)) && Get(Some(v), "col") == Some(Num(x.col))
    && Get(Some(v), "variant") == Some(Num(x.variant))
  }

  /** The entries that are objects with numeric row, col and variant, in order. */
  function DecodeIcebergs(items: seq<JsonValue>): (r: seq<Iceberg>)
    ensures |r| <= |items|
    ensures forall x :: x in r <==> exists v :: v in items && Decodes(v, x)
  {
    if items == [] then []
    else
      var v := Some(items[0]);
      var rest := DecodeIcebergs(items[1..]);
      assert forall w :: w in items <==> w == items[0] || w in items[1..];
      match (Get(v, "row"), Get(v, "col"), Get(v, "variant"))
      case (Some(Num(row)), Some(Num(col)), Some(Num(variant))) =>
        var x0 := Iceberg(row, col, variant);
        assert Decodes(items[0], x0) && items[0] in items;
        assert forall x :: Decodes(items[0], x) ==> x == x0;
        assert forall x :: x in [x0] + rest <==> x == x0 || x in rest;
        [x0] + rest
      case _ =>
        assert forall x :: !Decodes(items[0], x);
        rest
  }

  /**
   * applyNetState: only an object payload is read; each field is written
   * only when the incoming value has the expected type, and the iceberg list
   * only when an array arrives.
   */
  function ApplyNetState(s: Snapshot, state: JsonValue): (r: Snapshot)
    ensures !state.Obj? ==> r == s
    ensures !(Get(Some(state), "icebergs").Some? && Get(Some(state), "icebergs").value.Arr?) ==> r.icebergs == s.icebergs
    ensures Get(Some(state), "mode") == None ==> r.mode == s.mode
  {
    if !state.Obj? then s
    else
      var j := Some(state);
      var local2 := Get(j, "local2");
      var timing := Get(j, "icebergTiming");
      s.(mode := StrOr(Get(j, "mode"), s.mode),
         game := ApplyRound(s.game, Get(j, "game")),
         single := ApplySingle(s.single, Get(j, "single")),
         p1 := ApplyPlayer(s.p1, Get(local2, "player1")),
         p2 := ApplyPlayer(s.p2, Get(local2, "player2")),
         icebergs := match Get(j, "icebergs") case Some(Arr(xs)) => DecodeIcebergs(xs) case _ => s.icebergs,
         lastIcebergMoveTime := NumOr(Get(timing, "lastIcebergMoveTime"), s.lastIcebergMoveTime),
         lastIcebergSpawnTime := NumOr(Get(timing, "lastIcebergSpawnTime"), s.lastIcebergSpawnTime))
  }

  lemma {:induction false} IcebergsRoundTrip(ices: seq<Iceberg>)
    ensures DecodeIcebergs(EncodeIcebergs(ices)) == ices
  {
    if ices != [] {
      assert EncodeIcebergs(ices)[1..] == EncodeIcebergs(ices[1..]);
      IcebergsRoundTrip(ices[1..]);
    }
  }

  /** Decoding a concatenation decodes each part in turn. */
  lemma {:induction false} DecodeIcebergsConcat(a: seq<JsonValue>, b: seq<JsonValue>)
    ensures DecodeIcebergs(a + b) == DecodeIcebergs(a) + DecodeIcebergs(b)
  {
    if a == [] {
      assert a + b == b;
    } else {
      assert (a + b)[0] == a[0] && (a + b)[1..] == a[1..] + b;
      DecodeIcebergsConcat(a[1..], b);
    }
  }

  lemma RoundRoundTrip(old_: Round, g: Round)
    ensures ApplyRound(old_, Some(EncodeRound(g))) == g
  {
  }

  /** A block holding every common field of `a` reads back as `a`, once the position is in place. */
  lemma ActorFieldsRoundTrip(b: Actor, a: Actor, v: Option<JsonValue>)
    requires b.col == a.col && b.row == a.row
    requires Get(v, "facingDx") == Some(Num(a.facingDx)) && Get(v, "facingDy") == Some(Num(a.facingDy))
    requires Get(v, "desiredDx") == Some(Num(a.desiredDx)) && Get(v, "desiredDy") == Some(Num(a.desiredDy))
    requires Get(v, "lastMoveTime") == Some(Num(a.lastMoveTime))
    requires Get(v, "lastStepDx") == Some(Num(a.lastStepDx)) && Get(v, "lastStepDy") == Some(Num(a.lastStepDy))
    requires Get(v, "carryingBear") == Some(Bool(a.carrying)) && Get(v, "savedBears") == Some(Num(a.saved))
    ensures ApplyActorFields(b, v) == a
  {
  }

  lemma SingleRoundTrip(old_: Actor, a: Actor)
    ensures ApplySingle(old_, Some(EncodeSingle(a))) == a
  {
    var v := Some(EncodeSingle(a));
    var p := Get(v, "player");
    assert p == Some(Obj(map["col" := Num(a.col), "row" := Num(a.row)]));
    assert Get(p, "col") == Some(Num(a.col)) && Get(p, "row") == Some(Num(a.row));
    ActorFieldsRoundTrip(old_.(col := a.col, row := a.row), a, v);
  }

  lemma PlayerRoundTrip(old_: Actor, a: Actor)
    ensures ApplyPlayer(old_, Some(EncodePlayer(a))) == a
  {
    var v := Some(EncodePlayer(a));
    assert Get(v, "col") == Some(Num(a.col)) && Get(v, "row") == Some(Num(a.row));
    ActorFieldsRoundTrip(old_.(col := a.col, row := a.row), a, v);
  }

  /** Where buildNetState puts the mode, the round and the single-player boat. */
  lemma BuildNetStateTop(host: Snapshot)
    ensures var j := Some(BuildNetState(host));
      && Get(j, "mode") == Some(Str(host.mode))
      && Get(j, "game") == Some(EncodeRound(host.game))
      && Get(j, "single") == Some(EncodeSingle(host.single))
  {
  }

  /** Where buildNetState puts the two boats of the two-player modes. */
  lemma BuildNetStateLocal2(host: Snapshot)
    ensures var j := Some(BuildNetState(host));
      && Get(Get(j, "local2"), "player1") == Some(EncodePlayer(host.p1))
      && Get(Get(j, "local2"), "player2") == Some(EncodePlayer(host.p2))
  {
  }

  /** Where buildNetState puts the icebergs. */
  lemma BuildNetStateIcebergs(host: Snapshot)
    ensures Get(Some(BuildNetState(host)), "icebergs") == Some(Arr(EncodeIcebergs(host.icebergs)))
  {
  }

  /** Where buildNetState puts the iceberg timers. */
  lemma BuildNetStateTiming(host: Snapshot)
    ensures var t := Get(Some(BuildNetState(host)), "icebergTiming");
      && Get(t, "lastIcebergMoveTime") == Some(Num(host.lastIcebergMoveTime))
      && Get(t, "lastIcebergSpawnTime") == Some(Num(host.lastIcebergSpawnTime))
  {
  }

  /** Where buildNetState puts each part of the state. */
  lemma BuildNetStateParts(host: Snapshot)
    ensures var j := Some(BuildNetState(host));
      && Get(j, "mode") == Some(Str(host.mode))
      && Get(j, "game") == Some(EncodeRound(host.game))
      && Get(j, "single") == Some(EncodeSingle(host.single))
      && Get(Get(j, "local2"), "player1") == Some(EncodePlayer(host.p1))
      && Get(Get(j, "local2"), "player2") == Some(EncodePlayer(host.p2))
      && Get(j, "icebergs") == Some(Arr(EncodeIcebergs(host.icebergs)))
      && Get(Get(j, "icebergTiming"), "lastIcebergMoveTime") == Some(Num(host.lastIcebergMoveTime))
      && Get(Get(j, "icebergTiming"), "lastIcebergSpawnTime") == Some(Num(host.lastIcebergSpawnTime))
  {
    BuildNetStateTop(host);
    BuildNetStateLocal2(host);
    BuildNetStateIcebergs(host);
    BuildNetStateTiming(host);
  }

  /** Any object payload holding the host's encoded parts where buildNetState puts them reads back as the host's state. */
  lemma ApplyEncodedParts(guest: Snapshot, host: Snapshot, state: JsonValue)
    requires state.Obj?
    requires var j := Some(state);
      && Get(j, "mode") == Some(Str(host.mode))
      && Get(j, "game") == Some(EncodeRound(host.game))
      && Get(j, "single") == Some(EncodeSingle(host.single))
      && Get(Get(j, "local2"), "player1") == Some(EncodePlayer(host.p1))
      && Get(Get(j, "local2"), "player2") == Some(EncodePlayer(host.p2))
      && Get(j, "icebergs") == Some(Arr(EncodeIcebergs(host.icebergs)))
      && Get(Get(j, "icebergTiming"), "lastIcebergMoveTime") == Some(Num(host.lastIcebergMoveTime))
      && Get(Get(j, "icebergTiming"), "lastIcebergSpawnTime") == Some(Num(host.lastIcebergSpawnTime))
    ensures ApplyNetState(guest, state) == host
  {
    RoundRoundTrip(guest.game, host.game);
    SingleRoundTrip(guest.single, host.single);
    PlayerRoundTrip(guest.p1, host.p1);
    PlayerRoundTrip(guest.p2, host.p2);
    IcebergsRoundTrip(host.icebergs);
  }

  /** Whatever the guest held before, applying the host's snapshot reproduces the host's state. */
  lemma ReplicationRoundTrip(guest: Snapshot, host: Snapshot)
    ensures ApplyNetState(guest, BuildNetState(host)) == host
  {
    BuildNetStateParts(host);
    ApplyEncodedParts(guest, host, BuildNetState(host));
  }

  /** Reading a `game` block a second time changes nothing more. */
  lemma RoundApplyIdempotent(g: Round, v: Option<JsonValue>)
    ensures ApplyRound(ApplyRound(g, v), v) == ApplyRound(g, v)
  {
  }

  /** Reading the common actor fields a second time changes nothing more. */
  lemma ActorFieldsApplyIdempotent(a: Actor, v: Option<JsonValue>)
    ensures ApplyActorFields(ApplyActorFields(a, v), v) == ApplyActorFields(a, v)
  {
  }

  /** Reading a `single` or `playerN` block a second time changes nothing more. */
  lemma ActorApplyIdempotent(a: Actor, v: Option<JsonValue>)
    ensures ApplySingle(ApplySingle(a, v), v) == ApplySingle(a, v)
    ensures ApplyPlayer(ApplyPlayer(a, v), v) == ApplyPlayer(a, v)
  {
    var p := Get(v, "player");
    var b := a.(col := NumOr(Get(p, "col"), a.col), row := NumOr(Get(p, "row"), a.row));
    ActorFieldsApplyIdempotent(b, v);
    var c := a.(col := NumOr(Get(v, "col"), a.col), row := NumOr(Get(v, "row"), a.row));
    ActorFieldsApplyIdempotent(c, v);
  }

  /** Applying the same payload twice is the same as applying it once. */
  lemma ApplyIdempotent(s: Snapshot, state: JsonValue)
    ensures ApplyNetState(ApplyNetState(s, state), state) == ApplyNetState(s, state)
  {
    if state.Obj? {
      var j := Some(state);
      var local2 := Get(j, "local2");
      RoundApplyIdempotent(s.game, Get(j, "game"));
      ActorApplyIdempotent(s.single, Get(j, "single"));
      ActorApplyIdempotent(s.p1, Get(local2, "player1"));
      ActorApplyIdempotent(s.p2, Get(local2, "player2"));
    }
  }

  /** A payload that is not an object, or an empty object, leaves every field as it was. */
  lemma ApplyNothing(s: Snapshot, state: JsonValue)
    requires !state.Obj? || state.fields == map[]
    ensures ApplyNetState(s, state) == s
  {
  }

  /** A block that is absent or not an object has no fields, so reading it changes nothing. */
  lemma NonObjectBlockKeepsValues(g: Round, a: Actor, v: Option<JsonValue>)
    requires !(v.Some? && v.value.Obj?)
    ensures ApplyRound(g, v) == g
    ensures ApplyActorFields(a, v) == a && ApplySingle(a, v) == a && ApplyPlayer(a, v) == a
  {
  }

  /**
   * A later snapshot missing a field, or carrying a value of the wrong type,
   * keeps the value the earlier one set: here the second boat's cargo.
   */
  lemma MissingFieldKeepsValue(s: Snapshot, host: Snapshot, later: JsonValue)
    requires host.p2.carrying
    requires !Get(Get(Get(Some(later), "local2"), "player2"), "carryingBear").Some?
      || !Get(Get(Get(Some(later), "local2"), "player2"), "carryingBear").value.Bool?
    ensures ApplyNetState(s, BuildNetState(host)).p2.carrying
    ensures ApplyNetState(ApplyNetState(s, BuildNetState(host)), later).p2.carrying
  {
    ReplicationRoundTrip(s, host);
  }

  // ----- the guest's input -----

  /** The payload sendGuestInput publishes. */
  function GuestInput(dx: int, dy: int, updatedAt: int): (r: JsonValue)
    ensures r.Obj? && r.fields.Keys == {"dx", "dy", "updatedAt"}
  {
    Obj(map["dx" := Num(dx), "dy" := Num(dy), "updatedAt" := Num(updatedAt)])
  }

  /**
   * `Number(input.dx) || 0` and the same for dy, where `input` is the stored
   * value; `None` is a missing input. A falsy stored value reads as `{}`, and
   * neither it nor any other non-object has a `dx` or `dy`.
   */
  function DecodeGuestInput(input: Option<JsonValue>): (r: Dir)
    ensures !(input.Some? && input.value.Obj?) ==> r == Dir(0, 0)
    ensures Get(input, "dx").Some? && Get(input, "dx").value.Num? ==> r.dx == Get(input, "dx").value.n
    ensures Get(input, "dy").Some? && Get(input, "dy").value.Num? ==> r.dy == Get(input, "dy").value.n
  {
    Dir(NumberOrZero(Get(input, "dx")), NumberOrZero(Get(input, "dy")))
  }

  /** What the host does with the guest's input to the second boat. */
  function ApplyGuestInput(a: Actor, input: Option<JsonValue>): (r: Actor)
    ensures r.desiredDx == DecodeGuestInput(input).dx && r.desiredDy == DecodeGuestInput(input).dy
    ensures input.None? ==> r.desiredDx == 0 && r.desiredDy == 0
    ensures r.col == a.col && r.row == a.row && r.carrying == a.carrying && r.saved == a.saved
  {
    if input.None? then ClearDesired(a)
    else
      var d := DecodeGuestInput(input);
      if d.dx == 0 && d.dy == 0 then ClearDesired(a) else SetDesired(a, d.dx, d.dy)
  }

  /** The host reads back exactly the direction the guest published. */
  lemma GuestInputRoundTrip(dx: int, dy: int, updatedAt: int)
    ensures DecodeGuestInput(Some(GuestInput(dx, dy, updatedAt))) == Dir(dx, dy)
    ensures DecodeGuestInput(None) == Dir(0, 0)
  {
  }

  /** A direction stored as decimal strings is read as the same numbers. */
  lemma GuestInputFromStrings(dx: int, dy: int)
    ensures DecodeGuestInput(Some(Obj(map["dx" := Str(IntToString(dx)), "dy" := Str(IntToString(dy))])))
      == Dir(dx, dy)
  {
    IntToStringReadsBack(dx);
    IntToStringReadsBack(dy);
  }

  /**
   * Clearing on (0, 0) is the same as setting (0, 0): the second boat
   * always ends up wanting the decoded direction, with its facing
   * following any nonzero one, and nothing else about it changes.
   */
  lemma GuestInputSetsDesired(a: Actor, input: Option<JsonValue>)
    ensures ApplyGuestInput(a, input) == SetDesired(a, DecodeGuestInput(input).dx, DecodeGuestInput(input).dy)
  {
  }
}
