/** The state of `main` as the program keeps it: locals updated in place, the
    array `balls` written by the fill loop and by the per-frame step, and
    libc's hidden rand() position. Every method is proved to do what the
    matching function of module Pool says. */
module Simulation {
  import opened Constants
  import opened Pool

  /** A call of `render_circle(renderer, circle, radius)`. */
  datatype DrawCall = DrawCall(circle: Circle, radius: int)

  class World {
    var running: bool
    /** The primary ball, a local of its own and not `balls[0]`. */
    var ball: Circle
    const balls: array<Circle>
    /** The cursor `ball_count`: slots [1, ballCount) of `balls` are live. */
    var ballCount: int
    /** The rand() sequence fixed by the seed, and how much of it is used. */
    const rand: RandStream
    var randCalls: nat

    ghost predicate Valid()
      reads this
    {
      balls.Length == MaxBalls && 1 <= ballCount <= MaxBalls
    }

    ghost function Model(): State
      reads this, balls
    {
      State(running, ball, balls[..], ballCount, randCalls)
    }

    /** The set-up of `main` before its loop; the array starts with whatever
        it holds. */
    constructor (rand: RandStream)
      ensures Valid() && fresh(balls) && this.rand == rand
      ensures Model() == Initial(rand, balls[..])
    {
      this.rand := rand;
      balls := new Circle[MaxBalls];
      ballCount := 1;
      running := true;
      randCalls := 0;
      new;
      ball := SpawnBall();
    }

    /** One call of rand(). */
    method NextRand() returns (v: nat)
      modifies this`randCalls
      ensures v == rand(old(randCalls)) && randCalls == old(randCalls) + 1
    {
      v := rand(randCalls);
      randCalls := randCalls + 1;
    }

    /** The compound literal of a new ball, with its four rand() calls. */
    method SpawnBall() returns (c: Circle)
      modifies this`randCalls
      ensures c == Maker(rand)(old(randCalls)) && randCalls == old(randCalls) + 4
    {
      var vx := NextRand();
      var red := NextRand();
      var green := NextRand();
      var blue := NextRand();
      c := Circle(Center, Vector(SpawnVelocityX(vx) as real, 0.0),
                  Color((red % 256) as uint8, (green % 256) as uint8, (blue % 256) as uint8, 0));
    }

    /** Key R. */
    method ResetPrimary()
      requires Valid()
      modifies this
      ensures Valid() && Model() == Reset(rand, old(Model()))
    {
      ball := ball.(position := ball.position.(x := (ScreenWidth / 2) as real));
      ball := ball.(position := ball.position.(y := (ScreenHeight / 2) as real));
      ball := ball.(velocity := ball.velocity.(y := 0.0));
      var raw := NextRand();
      ball := ball.(velocity := ball.velocity.(x := ResetVelocityX(raw) as real));
      ballCount := 1;
    }

    /** Key SPACE: fill the array up to MAX_BALLS. */
    method FillPool()
      requires Valid()
      modifies this, balls
      ensures Valid() && Model() == Fill(rand, old(Model()))
    {
      while ballCount < MaxBalls
        invariant Valid()
        invariant FillWith(Maker(rand), Model()) == Fill(rand, old(Model()))
        decreases MaxBalls - ballCount
      {
        ghost var before := Model();
        var c := SpawnBall();
        balls[ballCount] := c;
        ballCount := ballCount + 1;
        assert Model() == Push(Maker(rand), before);
      }
    }

    /** One event of the polling loop. */
    method HandleEvent(e: Event)
      requires Valid()
      modifies this, balls
      ensures Valid() && Model() == Apply(rand, old(Model()), e)
    {
      match e
      case WindowClose =>
        running := false;
      case KeyDown(KeyR) =>
        ResetPrimary();
      case KeyDown(KeyQ) =>
        running := false;
        FillPool();
      case KeyDown(KeySpace) =>
        FillPool();
      case KeyDown(OtherKey) =>
      case OtherEvent =>
    }

    /** `while (SDL_PollEvent(&event))`: the events of one frame. */
    method HandleEvents(events: seq<Event>)
      requires Valid()
      modifies this, balls
      ensures Valid() && Model() == ApplyAll(rand, old(Model()), events)
    {
      var i := 0;
      while i < |events|
        invariant 0 <= i <= |events| && Valid()
        invariant ApplyAll(rand, Model(), events[i..]) == ApplyAll(rand, old(Model()), events)
      {
        assert events[i..][1..] == events[i + 1..];
        HandleEvent(events[i]);
        i := i + 1;
      }
    }

    /** The step of the primary ball, `update_balls(&ball, ...)`, recorded in
        the step log as it happens. */
    method StepPrimary(update: Update, dt: real, log: seq<Slot>) returns (log': seq<Slot>)
      modifies this`ball
      ensures ball == update(old(ball), Wall, dt)
      ensures log' == log + [Primary]
    {
      ball := update(ball, Wall, dt);
      log' := log + [Primary];
    }

    /** One iteration of the array step: `balls[i] = update_balls(balls[i], ...)`,
        recorded in the step log as it happens. */
    method StepSlot(i: int, update: Update, dt: real, log: seq<Slot>) returns (log': seq<Slot>)
      requires 0 <= i < balls.Length
      modifies balls
      ensures balls[..] == old(balls[..])[i := update(old(balls[i]), Wall, dt)]
      ensures log' == log + [Pool(i)]
    {
      balls[i] := update(balls[i], Wall, dt);
      log' := log + [Pool(i)];
    }

    /** The frame's physics: the primary ball, then `balls[1..ball_count)`
        in increasing order. `stepped` lists the balls in the order stepped. */
    method StepBalls(update: Update, dt: real) returns (stepped: seq<Slot>)
      requires Valid()
      modifies this, balls
      ensures Valid() && Model() == Step(update, dt, old(Model()))
      ensures stepped == StepOrder(ballCount)
    {
      ghost var target := Step(update, dt, Model());
      stepped := StepPrimary(update, dt, []);
      var i := 1;
      while i < ballCount
        invariant 1 <= i <= ballCount && Valid()
        invariant ball == target.ball && ballCount == target.count
        invariant running == target.running && randCalls == target.randCalls
        invariant forall j :: 0 <= j < MaxBalls ==> balls[j] == if j < i then target.balls[j] else old(balls[j])
        invariant |stepped| == i && stepped[0] == Primary
        invariant forall k :: 1 <= k < i ==> stepped[k] == Pool(k)
      {
        stepped := StepSlot(i, update, dt, stepped);
        i := i + 1;
      }
      assert forall j :: 0 <= j < MaxBalls ==> balls[..][j] == target.balls[j];
      assert balls[..] == target.balls;
      assert stepped == StepOrder(ballCount);
    }

    /** The frame's drawing: the boundary, the primary ball, then
        `balls[1..ball_count)` in increasing order. */
    method Draw() returns (calls: seq<DrawCall>)
      requires Valid()
      ensures |calls| == ballCount + 1
      ensures calls[0] == DrawCall(Wall, CircleWindowRadius)
      ensures calls[1] == DrawCall(ball, BallRadius)
      ensures forall k :: 2 <= k < |calls| ==> calls[k] == DrawCall(balls[k - 1], BallRadius)
    {
      calls := [DrawCall(Wall, CircleWindowRadius), DrawCall(ball, BallRadius)];
      var i := 1;
      while i < ballCount
        invariant 1 <= i <= ballCount
        invariant |calls| == i + 1
        invariant calls[0] == DrawCall(Wall, CircleWindowRadius) && calls[1] == DrawCall(ball, BallRadius)
        invariant forall k :: 2 <= k < |calls| ==> calls[k] == DrawCall(balls[k - 1], BallRadius)
      {
        calls := calls + [DrawCall(balls[i], BallRadius)];
        i := i + 1;
      }
    }

    /** One iteration of `while (running)`. */
    method Frame(input: FrameInput, update: Update) returns (stepped: seq<Slot>, calls: seq<DrawCall>)
      requires Valid()
      modifies this, balls
      ensures Valid() && Model() == RunFrame(rand, update, old(Model()), input)
      ensures stepped == StepOrder(ballCount) && |calls| == ballCount + 1
      ensures calls[0] == DrawCall(Wall, CircleWindowRadius) && calls[1] == DrawCall(ball, BallRadius)
      ensures forall k :: 2 <= k < |calls| ==> calls[k] == DrawCall(balls[k - 1], BallRadius)
    {
      HandleEvents(input.events);
      stepped := StepBalls(update, input.dt);
      calls := Draw();
    }

    /** The main loop, over the frames the platform delivers. */
    method RunLoop(frames: seq<FrameInput>, update: Update) returns (framesRun: nat)
      requires Valid()
      modifies this, balls
      ensures Valid() && Model() == Run(rand, update, old(Model()), frames)
      ensures framesRun <= |frames| && (framesRun < |frames| ==> !running)
    {
      framesRun := 0;
      while running && framesRun < |frames|
        invariant framesRun <= |frames| && Valid()
        invariant Run(rand, update, Model(), frames[framesRun..]) == Run(rand, update, old(Model()), frames)
      {
        assert frames[framesRun..][1..] == frames[framesRun + 1..];
        var stepped, calls := Frame(frames[framesRun], update);
        framesRun := framesRun + 1;
      }
    }
  }
}
