/**
 * The round clock: a 60-second round measured from `roundStartTime`, less
 * the time spent paused. While paused, time reads as frozen at the pause
 * instant; resuming adds the paused span to `pauseAccumulated`.
 */
module RoundClock {
  import opened Options
  import opened Decimal

  const RoundDurationMs: int := 60_000

  /** `gameState` without its mode. */
  datatype Round = Round(
    gameStarted: bool,
    gameOver: bool,
    paused: bool,
    roundStartTime: int,
    pauseAccumulated: int,
    pauseStartedAt: Option<int>)

  /** Time as the clock reads it: the pause instant while one is recorded. */
  function EffectiveNow(g: Round, now: int): int {
    match g.pauseStartedAt
    case Some(t) => t
    case None => now
  }

  function Elapsed(g: Round, now: int): int {
    EffectiveNow(g, now) - g.roundStartTime - g.pauseAccumulated
  }

  /** updateTimer / drawTimer: the round length less the time elapsed outside pauses. */
  function Remaining(g: Round, now: int): (r: int)
    ensures g.pauseStartedAt.None? ==> r == RoundDurationMs - (now - g.roundStartTime - g.pauseAccumulated)
    ensures g.pauseStartedAt.Some? ==> r == RoundDurationMs - (g.pauseStartedAt.value - g.roundStartTime - g.pauseAccumulated)
    ensures g.pauseStartedAt.None? && g.pauseAccumulated == 0 && now == g.roundStartTime ==> r == RoundDurationMs
  {
    RoundDurationMs - Elapsed(g, now)
  }

  /** The remaining time drawTimer shows: the full round before any start, never below zero. */
  function DisplayRemaining(g: Round, now: int): (r: int)
    ensures 0 <= r
    ensures !g.gameStarted ==> r == RoundDurationMs
    ensures g.gameStarted ==> r >= Remaining(g, now) && (Remaining(g, now) > 0 ==> r == Remaining(g, now))
    ensures g.gameStarted && Remaining(g, now) <= 0 ==> r == 0
  {
    if !g.gameStarted then RoundDurationMs
    else if Remaining(g, now) < 0 then 0 else Remaining(g, now)
  }

  /** The pause button while running: record the pause instant. */
  function PauseRound(g: Round, now: int): (r: Round)
    ensures r.paused && r.pauseStartedAt == Some(now)
    ensures g.pauseStartedAt.None? ==> forall t :: Remaining(r, t) == Remaining(g, now)
    ensures r.gameStarted == g.gameStarted && r.gameOver == g.gameOver
    ensures r.roundStartTime == g.roundStartTime && r.pauseAccumulated == g.pauseAccumulated
  {
    g.(paused := true, pauseStartedAt := Some(now))
  }

  /** The pause button while paused: count the paused span and run again. */
  function ResumeRound(g: Round, now: int): (r: Round)
    ensures !r.paused && r.pauseStartedAt.None?
    ensures Remaining(r, now) == Remaining(g, now)
    ensures g.pauseStartedAt.None? ==> forall t :: Remaining(r, t) == Remaining(g, t)
    ensures r.gameStarted == g.gameStarted && r.gameOver == g.gameOver && r.roundStartTime == g.roundStartTime
  {
    match g.pauseStartedAt
    case Some(t) => g.(paused := false, pauseAccumulated := g.pauseAccumulated + (now - t), pauseStartedAt := None)
    case None => g.(paused := false)
  }

  /** While a pause instant is recorded the remaining time does not move. */
  lemma PausedClockIsFrozen(g: Round, t: int, u: int)
    requires g.pauseStartedAt.Some?
    ensures Remaining(g, t) == Remaining(g, u)
  {
  }

  /** While running, the remaining time never grows as time goes on. */
  lemma RunningClockCountsDown(g: Round, t: int, u: int)
    requires g.pauseStartedAt.None? && t <= u
    ensures Remaining(g, u) <= Remaining(g, t)
    ensures Remaining(g, u) == Remaining(g, t) - (u - t)
  {
  }

  /**
   * A pause from `t0` to `t1` shifts the countdown by the paused span: at
   * any later time `t` the clock reads what it would have read at
   * `t - (t1 - t0)` without the pause; just after resuming it reads what it
   * read at the pause instant.
   */
  lemma PauseResume(g: Round, t0: int, t1: int, t: int)
    requires g.pauseStartedAt.None?
    ensures Remaining(PauseRound(g, t0), t) == Remaining(g, t0)
    ensures Remaining(ResumeRound(PauseRound(g, t0), t1), t) == Remaining(g, t - (t1 - t0))
    ensures Remaining(ResumeRound(PauseRound(g, t0), t1), t1) == Remaining(g, t0)
    ensures !ResumeRound(PauseRound(g, t0), t1).paused && ResumeRound(PauseRound(g, t0), t1).pauseStartedAt.None?
  {
  }

  // ----- formatTime -----

  /** `n` copies of `c`. */
  function Fill(n: nat, c: char): (r: string)
    ensures |r| == n
    ensures forall i :: 0 <= i < n ==> r[i] == c
  {
    if n == 0 then [] else [c] + Fill(n - 1, c)
  }

  /** `String.prototype.padStart(width, fill)` with a one-character fill. */
  function PadStart(s: string, width: nat, fill: char): (r: string)
    ensures |r| == if |s| >= width then |s| else width
    ensures r == Fill(|r| - |s|, fill) + s
  {
    if |s| >= width then s else Fill(width - |s|, fill) + s
  }

  /**
   * The `m:ss` text for whole minutes and seconds: it reads back as the
   * minutes and seconds it was written from.
   */
  function ClockText(minutes: nat, seconds: nat): (r: string)
    requires seconds < 60
    ensures |r| >= 4 && r[|r| - 3] == ':'
    ensures ClockSeconds(r) == Some(minutes * 60 + seconds)
  {
    var mm := PadStart(NatToString(minutes), 1, '0');
    var ss := PadStart(NatToString(seconds), 2, '0');
    assert |mm| >= 1 && AllDigits(mm) && DigitsValue(mm) == minutes by {
      assert mm == Fill(0, '0') + NatToString(minutes);
      NatToStringRoundTrip(minutes);
    }
    assert |ss| == 2 && AllDigits(ss) && DigitsValue(ss) == seconds by {
      TwoDigitsValue(seconds);
    }
    ClockSecondsOfParts(mm, ss, minutes, seconds);
    mm + [':'] + ss
  }

  /** `Math.max(0, Math.floor(ms / 1000))`: with a positive divisor `/` floors. */
  function WholeSeconds(ms: int): (s: nat)
    ensures ms < 1000 ==> s == 0
    ensures ms >= 0 ==> s == ms / 1000
  {
    if ms / 1000 > 0 then ms / 1000 else 0
  }

  /** formatTime: whole seconds as `m:ss`, negative times shown as 0:00. */
  function FormatTime(ms: int): (r: string)
    ensures |r| >= 4 && r[|r| - 3] == ':'
  {
    var totalSeconds := WholeSeconds(ms);
    ClockText(totalSeconds / 60, totalSeconds % 60)
  }

  /** Reads an `m:ss` display back as a number of seconds. */
  function ClockSeconds(s: string): Option<nat> {
    if |s| >= 4 && s[|s| - 3] == ':' && AllDigits(s[..|s| - 3]) && AllDigits(s[|s| - 2..]) then
      Some(DigitsValue(s[..|s| - 3]) * 60 + DigitsValue(s[|s| - 2..]))
    else None
  }

  lemma TwoDigitsValue(n: nat)
    requires n < 60
    ensures AllDigits(PadStart(NatToString(n), 2, '0'))
    ensures DigitsValue(PadStart(NatToString(n), 2, '0')) == n
  {
    NatToStringRoundTrip(n);
    var d := NatToString(n);
    var p := PadStart(d, 2, '0');
    if |d| == 1 {
      assert p == ['0'] + d;
      assert p[..1] == ['0'];
      assert DigitsValue(['0']) == 0 by { assert ['0'][..0] == []; }
      assert d[..0] == [];
    } else {
      assert p == d;
    }
  }

  /** A text whose parts around the colon are digit strings reads back from those parts. */
  lemma ClockSecondsOfSlices(r: string, mm: string, ss: string)
    requires |r| >= 4 && r[|r| - 3] == ':' && r[..|r| - 3] == mm && r[|r| - 2..] == ss
    requires AllDigits(mm) && AllDigits(ss)
    ensures ClockSeconds(r) == Some(DigitsValue(mm) * 60 + DigitsValue(ss))
  {
  }

  /** Digits, a colon and two more digits read back as minutes and seconds. */
  lemma ClockSecondsOfParts(mm: string, ss: string, minutes: nat, seconds: nat)
    requires |mm| >= 1 && AllDigits(mm) && DigitsValue(mm) == minutes
    requires |ss| == 2 && AllDigits(ss) && DigitsValue(ss) == seconds
    ensures |mm + [':'] + ss| >= 4 && (mm + [':'] + ss)[|mm + [':'] + ss| - 3] == ':'
    ensures ClockSeconds(mm + [':'] + ss) == Some(minutes * 60 + seconds)
  {
    var r := mm + [':'] + ss;
    assert |r| >= 4 && r[|r| - 3] == ':';
    assert r[..|r| - 3] == mm;
    assert r[|r| - 2..] == ss;
    ClockSecondsOfSlices(r, mm, ss);
  }

  /**
   * The display shows the whole seconds of the time, clamped at zero:
   * minutes in full, seconds as exactly two digits.
   */
  lemma FormatTimeReadsBack(ms: int)
    ensures ClockSeconds(FormatTime(ms)) == Some(if ms < 0 then 0 else ms / 1000)
  {
    var t := WholeSeconds(ms);
    assert t == if ms < 0 then 0 else ms / 1000;
    SecondsReadBack(t);
  }

  /** A whole number of seconds, split into minutes and seconds, reads back as itself. */
  lemma SecondsReadBack(t: nat)
    ensures ClockSeconds(ClockText(t / 60, t % 60)) == Some(t)
  {
    var minutes, seconds := t / 60, t % 60;
    assert minutes * 60 + seconds == t;
  }

  /** Anything under one second, negative times included, shows as 0:00. */
  lemma FormatTimeClampsToZero(ms: int)
    requires ms < 1000
    ensures FormatTime(ms) == "0:00"
  {
    assert NatToString(0) == "0";
    assert PadStart("0", 2, '0') == "00";
  }
}
