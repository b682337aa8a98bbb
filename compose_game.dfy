/** The Compose variant of the game: the session state of `GameState` and the
    state the `GameScreen` composable remembers (ball, particles, power-up).
    Every `delay`-driven loop of the composable is one method call per
    iteration; every `Random` draw is a parameter bounded to its range. */
module ComposeGame {
  import opened Geometry
  import Timer

  const BallRadius: real := 60.0
  const PowerUpRadius: real := 30.0
  const PowerUpBonus: int := 10
  /** The `life` a particle is created with (the data class default). */
  const ParticleLife: int := 60
  /** Particles per burst: `(0..15).map`. */
  const BurstSize: nat := 16
  const CanvasWidth: real := 1080.0
  const CanvasHeight: real := 1920.0

  datatype Particle = Particle(position: Offset, velocity: Offset, color: Color, life: int)

  /** Every particle has between one and `ParticleLife` frames left, so the
      alpha `life / 60` the renderer uses lies in (0, 1]. */
  ghost predicate LivesWithin(ps: seq<Particle>) {
    forall p :: p in ps ==> 0 < p.life <= ParticleLife
  }

  ghost predicate ColorsValid(ps: seq<Particle>) {
    forall p :: p in ps ==> ValidColor(p.color)
  }

  // ---------------------------------------------------------------------
  // Particle frame: `particles.map { move, life - 1 }.filter { life > 0 }`
  // ---------------------------------------------------------------------

  /** One frame of a single particle. */
  function Advance(p: Particle): Particle {
    p.(position := p.position.Plus(p.velocity), life := p.life - 1)
  }

  /** The `map` half of the frame. */
  function AdvanceAll(ps: seq<Particle>): (qs: seq<Particle>)
    ensures |qs| == |ps|
    ensures forall i :: 0 <= i < |ps| ==> qs[i] == Advance(ps[i])
  {
    seq(|ps|, i requires 0 <= i < |ps| => Advance(ps[i]))
  }

  /** The `filter` half of the frame: keep, in order, the particles that still
      have life left. */
  function KeepAlive(qs: seq<Particle>): (r: seq<Particle>)
    ensures |r| <= |qs|
    ensures forall q :: q in r ==> q in qs && q.life > 0
  {
    if qs == [] then []
    else if qs[0].life > 0 then [qs[0]] + KeepAlive(qs[1..])
    else KeepAlive(qs[1..])
  }

  /** The particle updater's frame. */
  function StepParticles(ps: seq<Particle>): (r: seq<Particle>)
    ensures |r| <= |ps|
    ensures forall q :: q in r ==> q.life > 0
  {
    KeepAlive(AdvanceAll(ps))
  }

  /** A frame keeps every particle's life within `1..ParticleLife` and every
      particle's colour valid. */
  lemma StepParticlesKeepsInvariant(ps: seq<Particle>)
    requires LivesWithin(ps) && ColorsValid(ps)
    ensures LivesWithin(StepParticles(ps)) && ColorsValid(StepParticles(ps))
  {
    StepParticlesFromOld(ps);
  }

  /** Every particle of the next frame is some particle of the old list
      advanced one frame: a frame creates no particle. */
  lemma StepParticlesFromOld(ps: seq<Particle>)
    ensures forall q :: q in StepParticles(ps) ==> exists i :: 0 <= i < |ps| && q == Advance(ps[i])
  {
    var qs := AdvanceAll(ps);
    assert forall q :: q in qs ==> exists i :: 0 <= i < |ps| && q == Advance(ps[i]);
  }

  /** The filter works element by element and keeps the order: filtering a
      concatenation is concatenating the filtered parts. */
  lemma {:induction false} KeepAliveAppend(a: seq<Particle>, b: seq<Particle>)
    ensures KeepAlive(a + b) == KeepAlive(a) + KeepAlive(b)
    decreases |a|
  {
    if a == [] {
      assert a + b == b;
    } else {
      assert (a + b)[0] == a[0] && (a + b)[1..] == a[1..] + b;
      KeepAliveAppend(a[1..], b);
      if a[0].life > 0 {
        assert [a[0]] + (KeepAlive(a[1..]) + KeepAlive(b)) == ([a[0]] + KeepAlive(a[1..])) + KeepAlive(b);
      }
    }
  }

  /** The particle frame handles every particle on its own and keeps their
      relative order: a frame of a concatenation is the concatenation of the
      frames of its parts. */
  lemma StepParticlesAppend(a: seq<Particle>, b: seq<Particle>)
    ensures StepParticles(a + b) == StepParticles(a) + StepParticles(b)
  {
    assert AdvanceAll(a + b) == AdvanceAll(a) + AdvanceAll(b);
    KeepAliveAppend(AdvanceAll(a), AdvanceAll(b));
  }

  /** A single particle survives its frame exactly when it had more than one
      frame left, and then it has moved by its velocity with one life less. */
  lemma StepParticlesSingle(p: Particle)
    ensures StepParticles([p]) == if p.life > 1 then [Advance(p)] else []
  {
    assert AdvanceAll([p]) == [Advance(p)];
    assert [Advance(p)][1..] == [];
  }

  /** Every particle of the list with more than one frame left is in the next
      frame, advanced, and the ones before it stay before it. */
  lemma SurvivorKept(ps: seq<Particle>, i: int)
    requires 0 <= i < |ps| && ps[i].life > 1
    ensures StepParticles(ps) == StepParticles(ps[..i]) + [Advance(ps[i])] + StepParticles(ps[i + 1..])
    ensures Advance(ps[i]) in StepParticles(ps)
  {
    assert ps == ps[..i] + [ps[i]] + ps[i + 1..];
    StepParticlesAppend(ps[..i] + [ps[i]], ps[i + 1..]);
    StepParticlesAppend(ps[..i], [ps[i]]);
    StepParticlesSingle(ps[i]);
  }

  /** Every particle of the list with at most one frame left is gone from the
      next frame; the rest of the list is framed as if it were not there. */
  lemma ExpiredDropped(ps: seq<Particle>, i: int)
    requires 0 <= i < |ps| && ps[i].life <= 1
    ensures StepParticles(ps) == StepParticles(ps[..i]) + StepParticles(ps[i + 1..])
  {
    assert ps == ps[..i] + [ps[i]] + ps[i + 1..];
    StepParticlesAppend(ps[..i] + [ps[i]], ps[i + 1..]);
    StepParticlesAppend(ps[..i], [ps[i]]);
    StepParticlesSingle(ps[i]);
  }

  /** `n` particle frames in a row. */
  function Frames(ps: seq<Particle>, n: nat): seq<Particle>
    decreases n
  {
    if n == 0 then ps else StepParticles(Frames(ps, n - 1))
  }

  // ---------------------------------------------------------------------
  // Burst: `(0..15).map { Particle(ballPosition, velocity, ballColor) }`
  // ---------------------------------------------------------------------

  /** A velocity component draw: `(Random.nextFloat() - 0.5f) * 8f`. */
  predicate BurstVelocity(v: Offset) {
    -4.0 <= v.x < 4.0 && -4.0 <= v.y < 4.0
  }

  /** The burst a ball hit creates, one particle per drawn velocity. */
  function Burst(origin: Offset, color: Color, velocities: seq<Offset>): (r: seq<Particle>)
    requires |velocities| == BurstSize
    ensures |r| == BurstSize
    ensures forall i :: 0 <= i < |r| ==>
      r[i].position == origin && r[i].velocity == velocities[i] &&
      r[i].color == color && r[i].life == ParticleLife
  {
    seq(BurstSize, i requires 0 <= i < BurstSize => Particle(origin, velocities[i], color, ParticleLife))
  }

  /** The burst `n` frames after it was spawned, while it is still alive. */
  function InFlight(origin: Offset, color: Color, velocities: seq<Offset>, n: nat): seq<Particle>
    requires |velocities| == BurstSize
  {
    seq(BurstSize, i requires 0 <= i < BurstSize =>
      Particle(Offset(origin.x + (n as real) * velocities[i].x, origin.y + (n as real) * velocities[i].y),
               velocities[i], color, ParticleLife - n))
  }

  lemma InFlightStep(origin: Offset, color: Color, velocities: seq<Offset>, n: nat)
    requires |velocities| == BurstSize && n < ParticleLife
    ensures AdvanceAll(InFlight(origin, color, velocities, n)) == InFlight(origin, color, velocities, n + 1)
  {
    var a, b := AdvanceAll(InFlight(origin, color, velocities, n)), InFlight(origin, color, velocities, n + 1);
    forall i | 0 <= i < BurstSize
      ensures a[i] == b[i]
    {
      var v := velocities[i];
      OneMoreStep(origin.x, v.x, n);
      OneMoreStep(origin.y, v.y, n);
    }
  }

  lemma OneMoreStep(start: real, v: real, n: nat)
    ensures start + (n as real) * v + v == start + ((n + 1) as real) * v
  {
    assert ((n + 1) as real) * v == (n as real) * v + 1.0 * v;
  }

  lemma {:induction false} KeepAliveAllAlive(qs: seq<Particle>)
    requires forall i :: 0 <= i < |qs| ==> qs[i].life > 0
    ensures KeepAlive(qs) == qs
    decreases |qs|
  {
    if qs != [] {
      KeepAliveAllAlive(qs[1..]);
    }
  }

  lemma {:induction false} KeepAliveAllDead(qs: seq<Particle>)
    requires forall i :: 0 <= i < |qs| ==> qs[i].life <= 0
    ensures KeepAlive(qs) == []
    decreases |qs|
  {
    if qs != [] {
      KeepAliveAllDead(qs[1..]);
    }
  }

  /** A burst lives exactly `ParticleLife` frames: for each earlier frame all
      sixteen particles are still there, each `n` velocity steps away from
      the ball with `ParticleLife - n` frames left; at frame `ParticleLife`
      the whole burst is gone. */
  lemma {:induction false} BurstLifetime(origin: Offset, color: Color, velocities: seq<Offset>, n: nat)
    requires |velocities| == BurstSize && n <= ParticleLife
    ensures n < ParticleLife ==> Frames(Burst(origin, color, velocities), n) == InFlight(origin, color, velocities, n)
    ensures n == ParticleLife ==> Frames(Burst(origin, color, velocities), n) == []
  {
    var burst := Burst(origin, color, velocities);
    if n == 0 {
      BurstStartsInFlight(origin, color, velocities);
    } else {
      BurstLifetime(origin, color, velocities, n - 1);
      InFlightStep(origin, color, velocities, n - 1);
      FrameAfter(burst, n, InFlight(origin, color, velocities, n));
      InFlightFilter(origin, color, velocities, n);
    }
  }

  /** While the burst has life left the filter keeps all of it; at the end
      it drops all of it. */
  lemma InFlightFilter(origin: Offset, color: Color, velocities: seq<Offset>, n: nat)
    requires |velocities| == BurstSize && n <= ParticleLife
    ensures n < ParticleLife ==> KeepAlive(InFlight(origin, color, velocities, n)) == InFlight(origin, color, velocities, n)
    ensures n == ParticleLife ==> KeepAlive(InFlight(origin, color, velocities, n)) == []
  {
    var flight := InFlight(origin, color, velocities, n);
    assert forall i :: 0 <= i < |flight| ==> flight[i].life == ParticleLife - n;
    if n < ParticleLife {
      KeepAliveAllAlive(flight);
    } else {
      KeepAliveAllDead(flight);
    }
  }

  /** One frame of a run of frames, given the `map` half of it. */
  lemma FrameAfter(ps: seq<Particle>, n: nat, moved: seq<Particle>)
    requires 0 < n && AdvanceAll(Frames(ps, n - 1)) == moved
    ensures Frames(ps, n) == KeepAlive(moved)
  {
  }

  lemma BurstStartsInFlight(origin: Offset, color: Color, velocities: seq<Offset>)
    requires |velocities| == BurstSize
    ensures Burst(origin, color, velocities) == InFlight(origin, color, velocities, 0)
  {
    var a, b := Burst(origin, color, velocities), InFlight(origin, color, velocities, 0);
    forall i | 0 <= i < BurstSize
      ensures a[i] == b[i]
    {
      assert 0.0 * velocities[i].x == 0.0 && 0.0 * velocities[i].y == 0.0;
    }
  }

  // ---------------------------------------------------------------------
  // Tap rules
  // ---------------------------------------------------------------------

  /** A tap collects the power-up when it is showing and the tap lies within
      `PowerUpRadius` of it, boundary included. */
  predicate CollectsPowerUp(active: bool, powerUp: Offset, tap: Offset) {
    active && Within(powerUp, tap, PowerUpRadius)
  }

  /** A tap hits the ball when it lies within `BallRadius` of its centre,
      boundary included. */
  predicate HitsBall(ball: Offset, tap: Offset) {
    Within(ball, tap, BallRadius)
  }

  /** Points one tap earns. The two checks are independent (there is no
      `else` between them), so the gain tells exactly which of them fired. */
  function TapGain(collected: bool, hit: bool): (g: int)
    ensures 0 <= g <= PowerUpBonus + 1
    ensures collected <==> g >= PowerUpBonus
    ensures hit <==> g % 2 == 1
  {
    (if collected then PowerUpBonus else 0) + (if hit then 1 else 0)
  }

  /** A tap can collect the power-up and hit the ball at once, earning
      `PowerUpBonus + 1`. */
  lemma CollectAndHitTogether(p: Offset)
    ensures CollectsPowerUp(true, p, p) && HitsBall(p, p)
    ensures TapGain(true, true) == PowerUpBonus + 1
  {
  }

  /** A spawned power-up position: `Random.nextFloat() * 1080f`,
      `Random.nextFloat() * 1920f`. */
  function SpawnPosition(u: real, v: real): (p: Offset)
    requires 0.0 <= u < 1.0 && 0.0 <= v < 1.0
    ensures InCanvas(p)
  {
    Offset(u * CanvasWidth, v * CanvasHeight)
  }

  predicate InCanvas(p: Offset) {
    0.0 <= p.x < CanvasWidth && 0.0 <= p.y < CanvasHeight
  }

  // ---------------------------------------------------------------------
  // Session state (`GameState`)
  // ---------------------------------------------------------------------

  class GameState {
    var gameStarted: bool
    var gameActive: bool
    var difficulty: int
    var score: int
    var timeLeft: int
    var highScore: int

    ghost predicate Valid()
      reads this
    {
      score >= 0 && timeLeft >= 0
    }

    /** The countdown's view of the session. */
    function Clock(): Timer.Clock
      reads this
    {
      Timer.Clock(timeLeft, gameActive)
    }

    /** `storedHighScore` is what the score store reports at creation. */
    constructor (storedHighScore: int)
      ensures Valid()
      ensures !gameStarted && !gameActive && difficulty == 1
      ensures score == 0 && timeLeft == Timer.GameSeconds && highScore == storedHighScore
    {
      gameStarted, gameActive, difficulty := false, false, 1;
      score, timeLeft, highScore := 0, Timer.GameSeconds, storedHighScore;
    }

    method StartGame()
      modifies this
      ensures Valid()
      ensures Clock() == Timer.Started && score == 0
      ensures gameStarted == old(gameStarted) && difficulty == old(difficulty)
      ensures highScore == old(highScore)
    {
      gameActive := true;
      score := 0;
      timeLeft := Timer.GameSeconds;
    }

    /** `storedHighScore` is what the score store reports after being handed
        the final score. */
    method EndGame(storedHighScore: int)
      modifies this
      ensures !gameActive && highScore == storedHighScore
      ensures score == old(score) && timeLeft == old(timeLeft)
      ensures gameStarted == old(gameStarted) && difficulty == old(difficulty)
    {
      gameActive := false;
      highScore := storedHighScore;
    }
  }

  // ---------------------------------------------------------------------
  // The composable's remembered state and its loops
  // ---------------------------------------------------------------------

  class GameScreen {
    const state: GameState
    var ballPosition: Offset
    var ballVelocity: Offset
    var ballColor: Color
    var particles: seq<Particle>
    var powerUpActive: bool
    var powerUpPosition: Offset

    ghost predicate Valid()
      reads this, state
    {
      && state.Valid()
      && ValidColor(ballColor)
      && LivesWithin(particles)
      && ColorsValid(particles)
      && InCanvas(powerUpPosition)
    }

    /** The `remember` initial values. */
    constructor (state: GameState)
      requires state.Valid()
      ensures Valid() && this.state == state
      ensures ballPosition == Zero && ballVelocity == Zero && ballColor == Red
      ensures particles == [] && !powerUpActive && powerUpPosition == Zero
    {
      this.state := state;
      ballPosition, ballVelocity, ballColor := Zero, Zero, Red;
      particles, powerUpActive, powerUpPosition := [], false, Zero;
    }

    /** The first `LaunchedEffect(Unit)`: the ball starts in the top-left
        corner moving diagonally. */
    method InitializeBall()
      modifies this
      ensures ballPosition == Offset(BallRadius, BallRadius) && ballVelocity == Offset(2.0, 2.0)
      ensures ballColor == old(ballColor) && particles == old(particles)
      ensures powerUpActive == old(powerUpActive) && powerUpPosition == old(powerUpPosition)
    {
      ballPosition := Offset(BallRadius, BallRadius);
      ballVelocity := Offset(2.0, 2.0);
    }

    /** One iteration of the timer loop: while time is left and the game is
        active take one second off; otherwise leave the loop, ending the game
        if it is still active. `running` says whether the loop goes on. */
    method TimerStep(storedHighScore: int) returns (running: bool)
      requires Valid()
      modifies state
      ensures Valid()
      ensures state.Clock() == Timer.Tick(old(state.Clock()))
      ensures running == (old(state.timeLeft) > 0 && old(state.gameActive))
      ensures state.score == old(state.score)
      ensures state.highScore == if old(state.gameActive) && !running then storedHighScore else old(state.highScore)
      ensures state.gameStarted == old(state.gameStarted) && state.difficulty == old(state.difficulty)
    {
      if state.timeLeft > 0 && state.gameActive {
        state.timeLeft := state.timeLeft - 1;
        running := true;
      } else {
        if state.gameActive {
          state.EndGame(storedHighScore);
        }
        running := false;
      }
    }

    /** The timer effect run to its end with nothing else interleaved: an
        active game counts down to zero and is then ended. */
    method RunTimer(storedHighScore: int)
      requires Valid()
      modifies state
      ensures Valid()
      ensures !state.gameActive && state.score == old(state.score)
      ensures old(state.gameActive) ==> state.timeLeft == 0 && state.highScore == storedHighScore
      ensures !old(state.gameActive) ==> state.timeLeft == old(state.timeLeft) && state.highScore == old(state.highScore)
      ensures state.gameStarted == old(state.gameStarted) && state.difficulty == old(state.difficulty)
    {
      var running := true;
      while running
        invariant Valid()
        invariant state.score == old(state.score)
        invariant state.gameStarted == old(state.gameStarted) && state.difficulty == old(state.difficulty)
        invariant running ==> state.gameActive == old(state.gameActive) && state.highScore == old(state.highScore)
        invariant running && !old(state.gameActive) ==> state.timeLeft == old(state.timeLeft)
        invariant !running ==> !state.gameActive
        invariant !running && old(state.gameActive) ==> state.timeLeft == 0 && state.highScore == storedHighScore
        invariant !running && !old(state.gameActive) ==> state.timeLeft == old(state.timeLeft) && state.highScore == old(state.highScore)
        decreases state.timeLeft + (if running then 1 else 0)
      {
        running := TimerStep(storedHighScore);
      }
    }

    /** One iteration of the particle updater loop. The loop runs only while
        the game is active (and its effect is cancelled when `gameActive`
        changes), so on an ended game the iteration does nothing and
        `running` is false. */
    method ParticleTick() returns (running: bool)
      requires Valid()
      modifies this
      ensures Valid()
      ensures running == state.gameActive
      ensures particles == if running then StepParticles(old(particles)) else old(particles)
      ensures ballPosition == old(ballPosition) && ballVelocity == old(ballVelocity) && ballColor == old(ballColor)
      ensures powerUpActive == old(powerUpActive) && powerUpPosition == old(powerUpPosition)
    {
      running := state.gameActive;
      if running {
        StepParticlesKeepsInvariant(particles);
        particles := StepParticles(particles);
      }
    }

    /** First half of one power-up spawner iteration (after the 10 s wait):
        place the power-up at a drawn position unless one is showing. Only an
        active game runs the spawner; `running` says whether it runs. */
    method SpawnPowerUp(u: real, v: real) returns (running: bool)
      requires Valid()
      requires 0.0 <= u < 1.0 && 0.0 <= v < 1.0
      modifies this
      ensures Valid()
      ensures running == state.gameActive
      ensures running && !old(powerUpActive) ==> powerUpActive && powerUpPosition == SpawnPosition(u, v)
      ensures !running || old(powerUpActive) ==>
        powerUpActive == old(powerUpActive) && powerUpPosition == old(powerUpPosition)
      ensures ballPosition == old(ballPosition) && ballVelocity == old(ballVelocity)
      ensures ballColor == old(ballColor) && particles == old(particles)
    {
      running := state.gameActive;
      if running && !powerUpActive {
        powerUpPosition := SpawnPosition(u, v);
        powerUpActive := true;
      }
    }

    /** Second half of one power-up spawner iteration (after the 5 s wait):
        in an active game the power-up disappears whether or not it was
        collected; `running` says whether the spawner runs. */
    method ExpirePowerUp() returns (running: bool)
      requires Valid()
      modifies this
      ensures Valid()
      ensures running == state.gameActive
      ensures powerUpActive == (old(powerUpActive) && !running) && powerUpPosition == old(powerUpPosition)
      ensures ballPosition == old(ballPosition) && ballVelocity == old(ballVelocity)
      ensures ballColor == old(ballColor) && particles == old(particles)
    {
      running := state.gameActive;
      if running {
        powerUpActive := false;
      }
    }

    /** The tap handler. `velocities` are the sixteen burst velocity draws and
        `newColor` the recolour draw; they are used only on a ball hit. */
    method OnTap(tap: Offset, velocities: seq<Offset>, newColor: Color)
      requires Valid()
      requires |velocities| == BurstSize && forall v :: v in velocities ==> BurstVelocity(v)
      requires ValidColor(newColor)
      modifies this, state
      ensures Valid()
      ensures state.Clock() == old(state.Clock()) && state.highScore == old(state.highScore)
      ensures state.gameStarted == old(state.gameStarted) && state.difficulty == old(state.difficulty)
      ensures ballPosition == old(ballPosition) && ballVelocity == old(ballVelocity)
      ensures powerUpPosition == old(powerUpPosition)
      ensures !old(state.gameActive) ==>
        && state.score == old(state.score) && particles == old(particles)
        && ballColor == old(ballColor) && powerUpActive == old(powerUpActive)
      ensures old(state.gameActive) ==>
        var collected := CollectsPowerUp(old(powerUpActive), old(powerUpPosition), tap);
        var hit := HitsBall(old(ballPosition), tap);
        && state.score == old(state.score) + TapGain(collected, hit)
        && powerUpActive == (old(powerUpActive) && !collected)
        && particles == (if hit then Burst(old(ballPosition), old(ballColor), velocities) else old(particles))
        && ballColor == (if hit then newColor else old(ballColor))
    {
      if state.gameActive {
        if powerUpActive && Within(powerUpPosition, tap, PowerUpRadius) {
          state.score := state.score + PowerUpBonus;
          powerUpActive := false;
        }
        if Within(ballPosition, tap, BallRadius) {
          state.score := state.score + 1;
          particles := Burst(ballPosition, ballColor, velocities);
          ballColor := newColor;
        }
      }
    }
  }
}
