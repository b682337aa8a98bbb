/** The one-second countdown both variants run: while time is left and the
    game is active a firing takes one second off; the first firing that finds
    no time left (or an inactive game) ends the game. */
module Timer {

  /** Seconds per game, the value `startGame` puts into `timeLeft`. */
  const GameSeconds: int := 30

  /** The part of a session the countdown reads and writes. */
  datatype Clock = Clock(timeLeft: int, active: bool)

  /** The state right after `startGame`. */
  const Started := Clock(GameSeconds, true)

  /** One firing of the countdown. */
  function Tick(c: Clock): (r: Clock)
    ensures c.timeLeft > 0 && c.active ==> r == Clock(c.timeLeft - 1, true)
    ensures !(c.timeLeft > 0 && c.active) ==> r == Clock(c.timeLeft, false)
    ensures c.timeLeft >= 0 ==> r.timeLeft >= 0
    ensures r.timeLeft <= c.timeLeft && (r.active ==> c.active)
  {
    if c.timeLeft > 0 && c.active then Clock(c.timeLeft - 1, true)
    else Clock(c.timeLeft, false)
  }

  /** `n` firings in a row. */
  function Ticks(c: Clock, n: nat): Clock
    decreases n
  {
    if n == 0 then c else Ticks(Tick(c), n - 1)
  }

  /** Time left never grows, never drops below zero once it is non-negative,
      and an ended game never becomes active again. */
  lemma {:induction false} TicksMonotone(c: Clock, n: nat)
    ensures Ticks(c, n).timeLeft <= c.timeLeft
    ensures c.timeLeft >= 0 ==> Ticks(c, n).timeLeft >= 0
    ensures Ticks(c, n).active ==> c.active
    decreases n
  {
    if n > 0 {
      TicksMonotone(Tick(c), n - 1);
    }
  }

  /** Each of the first `t` firings takes exactly one second off an active
      game with `t` seconds left, and the game stays active meanwhile. */
  lemma {:induction false} TicksCountDown(t: int, n: nat)
    requires 0 <= n <= t
    ensures Ticks(Clock(t, true), n) == Clock(t - n, true)
  {
    if n > 0 {
      TicksCountDown(t - 1, n - 1);
    }
  }

  /** The firing after time reached zero is the one that ends the game, and it
      is the first to do so. */
  lemma {:induction false} GameEndsAfterBudget(t: nat)
    ensures forall n: nat :: n <= t ==> Ticks(Clock(t, true), n).active
    ensures Ticks(Clock(t, true), t) == Clock(0, true)
    ensures Ticks(Clock(t, true), t + 1) == Clock(0, false)
  {
    forall n: nat | n <= t
      ensures Ticks(Clock(t, true), n).active
    {
      TicksCountDown(t, n);
    }
    TicksCountDown(t, t);
    TicksSplit(Clock(t, true), t, 1);
  }

  /** Firings compose. */
  lemma {:induction false} TicksSplit(c: Clock, m: nat, n: nat)
    ensures Ticks(c, m + n) == Ticks(Ticks(c, m), n)
    decreases m
  {
    if m > 0 {
      TicksSplit(Tick(c), m - 1, n);
    }
  }

  /** An ended game is left alone by any further firing. */
  lemma {:induction false} EndedIsFinal(c: Clock, n: nat)
    requires !c.active
    ensures Ticks(c, n) == c
    decreases n
  {
    if n > 0 {
      EndedIsFinal(Tick(c), n - 1);
    }
  }

  /** A freshly started game: 30 firings leave it active at zero, the 31st
      ends it. */
  lemma StartedGameTimeline()
    ensures Ticks(Started, GameSeconds) == Clock(0, true)
    ensures Ticks(Started, GameSeconds + 1) == Clock(0, false)
  {
    GameEndsAfterBudget(GameSeconds);
  }
}
