/** The View-based variant of the game (`GameView`): a ball that wanders by a
    random step each frame, clamped to the view, and jumps to a random spot
    when tapped. Each `Handler` callback is one method call; each `Random`
    draw is a parameter bounded to its range; the view's `width` and
    `height`, which layout assigns, are parameters. */
module ViewGame {
  import opened Geometry
  import Timer

  const BallRadius: real := 60.0
  /** `ballRadius.toInt()`, the bound the respawn draws use. */
  const BallRadiusInt: int := 60
  const StartX: real := 100.0
  const StartY: real := 100.0
  /** `MotionEvent.ACTION_DOWN`. */
  const ActionDown: int := 0

  /** How a call ended: normally, or with the `IllegalArgumentException` that
      `coerceIn` and `Random.nextInt(from, until)` throw on an empty range. */
  datatype Status = Completed | IllegalArgument

  /** Kotlin's `coerceIn(lo, hi)` on a non-empty range: the point of the range
      nearest to `v`. */
  function CoerceIn(v: real, lo: real, hi: real): (r: real)
    requires lo <= hi
    ensures lo <= r <= hi
    ensures lo <= v <= hi ==> r == v
    ensures v < lo ==> r == lo
    ensures v > hi ==> r == hi
  {
    if v < lo then lo else if v > hi then hi else v
  }

  /** No point of the range is closer to `v` than `CoerceIn(v, lo, hi)`. */
  lemma CoerceInIsNearest(v: real, lo: real, hi: real, w: real)
    requires lo <= w <= hi
    ensures Abs(CoerceIn(v, lo, hi) - v) <= Abs(w - v)
  {
  }

  function Abs(x: real): real {
    if x < 0.0 then -x else x
  }

  /** A displacement draw of `update`: `Random.nextInt(-10, 10)`, so an
      integer from -10 to 9. */
  predicate StepDraw(d: int) {
    -10 <= d < 10
  }

  /** The range `update` clamps to along an axis of the given extent is
      non-empty; otherwise `coerceIn` throws. */
  predicate ClampRangeNonEmpty(extent: int) {
    BallRadius <= extent as real - BallRadius
  }

  /** One axis of `update`: step by the drawn displacement and clamp into
      `[BallRadius, extent - BallRadius]`. A ball already in range moves by
      at most the drawn displacement, so by at most 10 along the axis. */
  function WanderStep(x: real, d: int, extent: int): (r: real)
    requires StepDraw(d) && ClampRangeNonEmpty(extent)
    ensures BallRadius <= r <= extent as real - BallRadius
    ensures BallRadius <= x <= extent as real - BallRadius ==>
      Abs(r - x) <= Abs(d as real) && -10.0 <= r - x <= 9.0
  {
    CoerceIn(x + d as real, BallRadius, extent as real - BallRadius)
  }

  /** `Random.nextInt(BallRadiusInt, extent - BallRadiusInt)` has something to
      draw from; otherwise it throws. */
  predicate RespawnRangeNonEmpty(extent: int) {
    BallRadiusInt < extent - BallRadiusInt
  }

  /** A respawn draw along an axis of the given extent. */
  predicate RespawnDraw(d: int, extent: int) {
    BallRadiusInt <= d < extent - BallRadiusInt
  }

  class GameView {
    var ballX: real
    var ballY: real
    /** `ballPaint.color`. */
    var ballColor: Color
    var score: int
    var timeLeft: int
    var gameActive: bool

    ghost predicate Valid()
      reads this
    {
      score >= 0 && timeLeft >= 0 && ValidColor(ballColor)
    }

    /** The countdown's view of the game. */
    function Clock(): Timer.Clock
      reads this
    {
      Timer.Clock(timeLeft, gameActive)
    }

    /** The field initialisers followed by `init { startGame() }`. */
    constructor ()
      ensures Valid()
      ensures ballX == StartX && ballY == StartY && ballColor == Red
      ensures score == 0 && Clock() == Timer.Started
    {
      ballX, ballY, ballColor := StartX, StartY, Red;
      score, timeLeft, gameActive := 0, Timer.GameSeconds, true;
      new;
      StartGame();
    }

    /** Resets the session; the countdown and the frame loop it posts are the
        methods CountdownRunnable and GameLoopRun. */
    method StartGame()
      requires ValidColor(ballColor)
      modifies this
      ensures Valid()
      ensures score == 0 && Clock() == Timer.Started
      ensures ballX == old(ballX) && ballY == old(ballY) && ballColor == old(ballColor)
    {
      score := 0;
      timeLeft := Timer.GameSeconds;
      gameActive := true;
    }

    /** One firing of the countdown runnable; `rescheduled` says whether it
        posts itself again for one second later. */
    method CountdownRunnable() returns (rescheduled: bool)
      requires Valid()
      modifies this
      ensures Valid()
      ensures Clock() == Timer.Tick(old(Clock()))
      ensures rescheduled == (old(timeLeft) > 0 && old(gameActive))
      ensures score == old(score) && ballX == old(ballX) && ballY == old(ballY) && ballColor == old(ballColor)
    {
      if timeLeft > 0 && gameActive {
        timeLeft := timeLeft - 1;
        rescheduled := true;
      } else {
        gameActive := false;
        rescheduled := false;
      }
    }

    /** `update`: a random step on each axis, then clamping into the view.
        When the view is too small for the ball along an axis, `coerceIn`
        throws, leaving what was assigned before it. */
    method Update(width: int, height: int, dx: int, dy: int) returns (status: Status)
      requires StepDraw(dx) && StepDraw(dy)
      modifies this
      ensures score == old(score) && Clock() == old(Clock()) && ballColor == old(ballColor)
      ensures status == Completed <==> ClampRangeNonEmpty(width) && ClampRangeNonEmpty(height)
      ensures status == Completed ==>
        && ballX == WanderStep(old(ballX), dx, width) && ballY == WanderStep(old(ballY), dy, height)
        && BallRadius <= ballX <= width as real - BallRadius
        && BallRadius <= ballY <= height as real - BallRadius
      ensures !ClampRangeNonEmpty(width) ==>
        ballX == old(ballX) + dx as real && ballY == old(ballY) + dy as real
      ensures ClampRangeNonEmpty(width) && !ClampRangeNonEmpty(height) ==>
        ballX == WanderStep(old(ballX), dx, width) && ballY == old(ballY) + dy as real
    {
      ballX := ballX + dx as real;
      ballY := ballY + dy as real;
      if !ClampRangeNonEmpty(width) {
        return IllegalArgument;
      }
      ballX := CoerceIn(ballX, BallRadius, width as real - BallRadius);
      if !ClampRangeNonEmpty(height) {
        return IllegalArgument;
      }
      ballY := CoerceIn(ballY, BallRadius, height as real - BallRadius);
      status := Completed;
    }

    /** One run of the frame loop: only an active game is updated (and the
        loop re-posted); an update that throws ends the loop. */
    method GameLoopRun(width: int, height: int, dx: int, dy: int) returns (rescheduled: bool, status: Status)
      requires StepDraw(dx) && StepDraw(dy)
      modifies this
      ensures score == old(score) && Clock() == old(Clock()) && ballColor == old(ballColor)
      ensures !old(gameActive) ==>
        ballX == old(ballX) && ballY == old(ballY) && !rescheduled && status == Completed
      ensures old(gameActive) ==>
        (status == Completed <==> ClampRangeNonEmpty(width) && ClampRangeNonEmpty(height)) &&
        rescheduled == (status == Completed)
      ensures old(gameActive) && status == Completed ==>
        ballX == WanderStep(old(ballX), dx, width) && ballY == WanderStep(old(ballY), dy, height)
    {
      if gameActive {
        status := Update(width, height, dx, dy);
        rescheduled := status == Completed;
      } else {
        rescheduled, status := false, Completed;
      }
    }

    /** `onTouchEvent`: a press on the ball while the game is active scores
        one, moves the ball to the drawn integer spot and recolours it. The
        respawn draws throw when the view is too small for them, leaving what
        was assigned before. An event that completes is reported as handled. */
    method OnTouchEvent(width: int, height: int, action: int, touch: Offset,
                        drawX: int, drawY: int, newColor: Color)
      returns (handled: bool, status: Status)
      requires Valid()
      requires RespawnRangeNonEmpty(width) ==> RespawnDraw(drawX, width)
      requires RespawnRangeNonEmpty(height) ==> RespawnDraw(drawY, height)
      requires ValidColor(newColor)
      modifies this
      ensures Valid() && (status == Completed ==> handled)
      ensures Clock() == old(Clock())
      ensures !(action == ActionDown && old(gameActive) && Within(Offset(old(ballX), old(ballY)), touch, BallRadius)) ==>
        && score == old(score) && ballX == old(ballX) && ballY == old(ballY)
        && ballColor == old(ballColor) && status == Completed
      ensures action == ActionDown && old(gameActive) && Within(Offset(old(ballX), old(ballY)), touch, BallRadius) ==>
        && score == old(score) + 1
        && (status == Completed <==> RespawnRangeNonEmpty(width) && RespawnRangeNonEmpty(height))
        && (RespawnRangeNonEmpty(width) ==>
              ballX == drawX as real && BallRadius <= ballX < width as real - BallRadius)
        && (!RespawnRangeNonEmpty(width) ==> ballX == old(ballX))
        && (RespawnRangeNonEmpty(width) && RespawnRangeNonEmpty(height) ==>
              ballY == drawY as real && BallRadius <= ballY < height as real - BallRadius)
        && (status != Completed ==> ballY == old(ballY))
        && ballColor == (if status == Completed then newColor else old(ballColor))
    {
      handled, status := true, Completed;
      if action == ActionDown && gameActive {
        if Within(Offset(ballX, ballY), touch, BallRadius) {
          score := score + 1;
          if !RespawnRangeNonEmpty(width) {
            status := IllegalArgument;
            return;
          }
          ballX := drawX as real;
          if !RespawnRangeNonEmpty(height) {
            status := IllegalArgument;
            return;
          }
          ballY := drawY as real;
          ballColor := newColor;
        }
      }
    }
  }
}
