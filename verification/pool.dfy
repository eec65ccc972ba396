/** The ball pool and the key commands of the demo's main loop, as functions
    on an abstract state. The class `World` in module Simulation runs the same
    logic in place and is proved against these functions. */
module Pool {
  import opened Constants

  datatype Option<T> = None | Some(value: T)

  /** An SDL_Color channel. */
  type uint8 = x: int | 0 <= x < 256

  /** Positions and velocities are floats in the program; the step that does
      float arithmetic on them is a parameter here, so reals stand in for them. */
  datatype Vector = Vector(x: real, y: real)
  datatype Color = Color(r: uint8, g: uint8, b: uint8, a: uint8)
  datatype Circle = Circle(position: Vector, velocity: Vector, color: Color)

  /** The values libc's rand() returns after seeding: the k-th call yields
      `rand(k)`, a non-negative int. */
  type RandStream = nat -> nat

  /** `update_balls(ball, wall, delta_time)`: the float physics step, opaque. */
  type Update = (Circle, Circle, real) -> Circle

  /** The centre of the window, `{SCREEN_WIDTH / 2, SCREEN_HEIGHT / 2}`. */
  const Center: Vector := Vector((ScreenWidth / 2) as real, (ScreenHeight / 2) as real)

  /** The boundary circle `circle_window`. */
  const Wall: Circle := Circle(Center, Vector(0.0, 0.0), Color(20, 20, 20, 0))

  /** `rand() % (2 * n + 1) - n`, the horizontal velocity of a new ball. */
  function SpawnVelocityX(raw: nat): (vx: int)
    ensures -N <= vx <= N
  {
    raw % (2 * N + 1) - N
  }

  /** `rand() % (2 * n) - n`, the horizontal velocity given by reset. */
  function ResetVelocityX(raw: nat): (vx: int)
    ensures -N <= vx <= N - 1
  {
    raw % (2 * N) - N
  }

  /** The compound literal of a new ball, built from the four rand() values
      starting at call k: velocity x, then the three colour channels. A new
      ball starts at the centre, at rest vertically, with a horizontal velocity
      in [-n, n] and a colour of alpha 0. */
  function NewBall(rand: RandStream, k: nat): (c: Circle)
    ensures c.position == Center && c.velocity.y == 0.0
    ensures -N as real <= c.velocity.x <= N as real
    ensures c.color.a == 0
  {
    Circle(Center,
           Vector(SpawnVelocityX(rand(k)) as real, 0.0),
           Color((rand(k + 1) % 256) as uint8, (rand(k + 2) % 256) as uint8, (rand(k + 3) % 256) as uint8, 0))
  }

  /** The way SPACE builds its balls: `NewBall(rand, k)` for the rand()
      values from call k on. */
  function Maker(rand: RandStream): nat -> Circle
  {
    (k: nat) => NewBall(rand, k)
  }

  /** The wall is centred in the square window and stands still, so it
      touches all four window edges; every new ball is spawned at its centre. */
  lemma WallInscribed(rand: RandStream, k: nat)
    ensures Center == Vector(CircleWindowRadius as real, CircleWindowRadius as real)
    ensures ScreenWidth == ScreenHeight == 2 * CircleWindowRadius
    ensures Wall.position == Center && Wall.velocity == Vector(0.0, 0.0)
    ensures NewBall(rand, k).position == Wall.position
  {
  }

  /** The state of `main` that the events change: the running flag, the
      primary ball (kept apart from the array), the array `balls`, the cursor
      `ball_count`, and how many rand() values have been used. */
  datatype State = State(running: bool, ball: Circle, balls: seq<Circle>, count: int, randCalls: nat)

  /** The array has MAX_BALLS entries and the cursor stays in [1, MAX_BALLS]. */
  predicate Valid(s: State)
  {
    |s.balls| == MaxBalls && 1 <= s.count <= MaxBalls
  }

  /** The state before the first frame: running, one live ball, the primary
      ball drawn from the first four rand() values, the array uninitialised. */
  function Initial(rand: RandStream, stale: seq<Circle>): (s: State)
    requires |stale| == MaxBalls
    ensures Valid(s) && s.running && s.count == 1
    ensures s.ball.position == Center && s.ball.velocity.y == 0.0
    ensures -N as real <= s.ball.velocity.x <= N as real
  {
    State(true, NewBall(rand, 0), stale, 1, 4)
  }

  /** Key R: the primary ball goes back to the centre with a new horizontal
      velocity, and the pool collapses to the primary ball alone. */
  function Reset(rand: RandStream, s: State): (t: State)
    requires Valid(s)
    ensures Valid(t) && t.count == 1
    ensures t.ball.position == Center && t.ball.velocity.y == 0.0
    ensures -N as real <= t.ball.velocity.x <= (N - 1) as real
    ensures t.ball.color == s.ball.color && t.balls == s.balls && t.running == s.running
    ensures t.randCalls == s.randCalls + 1
  {
    var vx := ResetVelocityX(rand(s.randCalls));
    s.(ball := s.ball.(position := Center, velocity := Vector(vx as real, 0.0)),
       count := 1,
       randCalls := s.randCalls + 1)
  }

  /** The loop `while (ball_count < MAX_BALLS) balls[ball_count++] = ...`,
      where `make(k)` is the ball built from the rand() values from call k on. */
  function FillWith(make: nat -> Circle, s: State): (t: State)
    requires Valid(s)
    ensures Valid(t) && t.count == MaxBalls
    ensures t.running == s.running && t.ball == s.ball
    decreases MaxBalls - s.count
  {
    if s.count < MaxBalls then FillWith(make, Push(make, s)) else s
  }

  /** One iteration of the fill loop: `balls[ball_count++] = make(...)`. */
  function Push(make: nat -> Circle, s: State): (t: State)
    requires Valid(s) && s.count < MaxBalls
    ensures Valid(t)
  {
    s.(balls := s.balls[s.count := make(s.randCalls)],
       count := s.count + 1,
       randCalls := s.randCalls + 4)
  }

  /** Key SPACE: fill the array with new balls up to MAX_BALLS. */
  function Fill(rand: RandStream, s: State): (t: State)
    requires Valid(s)
    ensures Valid(t) && t.count == MaxBalls
    ensures t.running == s.running && t.ball == s.ball
  {
    FillWith(Maker(rand), s)
  }

  /** The fill leaves every slot before the cursor as it was, slot 0 among
      them, and uses four rand() values per slot it fills. */
  lemma {:induction false} FillKeepsPrefix(make: nat -> Circle, s: State)
    requires Valid(s)
    ensures FillWith(make, s).randCalls == s.randCalls + 4 * (MaxBalls - s.count)
    ensures forall i :: 0 <= i < s.count ==> FillWith(make, s).balls[i] == s.balls[i]
    decreases MaxBalls - s.count
  {
    if s.count < MaxBalls {
      var next := Push(make, s);
      FillKeepsPrefix(make, next);
      assert FillWith(make, s) == FillWith(make, next);
    }
  }

  /** The fill writes every slot from the cursor to MAX_BALLS; slot i gets the
      ball built from the rand() values that follow those of the slots before
      it. */
  lemma {:induction false} FillWritesTail(make: nat -> Circle, s: State)
    requires Valid(s)
    ensures forall i :: s.count <= i < MaxBalls ==>
              FillWith(make, s).balls[i] == make(s.randCalls + 4 * (i - s.count))
    decreases MaxBalls - s.count
  {
    if s.count < MaxBalls {
      var next := Push(make, s);
      FillKeepsPrefix(make, next);
      FillWritesTail(make, next);
      var t := FillWith(make, next);
      assert FillWith(make, s) == t;
      assert t.balls[s.count] == make(s.randCalls);
      forall i | s.count < i < MaxBalls
        ensures t.balls[i] == make(s.randCalls + 4 * (i - s.count))
      {
        assert next.randCalls + 4 * (i - next.count) == s.randCalls + 4 * (i - s.count);
      }
    }
  }

  /** SPACE writes exactly the slots [ball_count, MAX_BALLS) with new balls
      drawn in turn from the rand() sequence; slot 0, the slots below the
      cursor and the primary ball keep their values. */
  lemma FillContents(rand: RandStream, s: State)
    requires Valid(s)
    ensures Fill(rand, s).randCalls == s.randCalls + 4 * (MaxBalls - s.count)
    ensures forall i :: 0 <= i < s.count ==> Fill(rand, s).balls[i] == s.balls[i]
    ensures forall i :: s.count <= i < MaxBalls ==>
              Fill(rand, s).balls[i] == NewBall(rand, s.randCalls + 4 * (i - s.count))
  {
    FillKeepsPrefix(Maker(rand), s);
    FillWritesTail(Maker(rand), s);
  }

  datatype Key = KeyR | KeyQ | KeySpace | OtherKey

  /** The SDL events the loop reacts to; every other event is ignored. */
  datatype Event = WindowClose | KeyDown(key: Key) | OtherEvent

  /** One iteration of the event switch. Key Q has no `break`, so after
      clearing `running` it falls through into the SPACE fill. */
  function Apply(rand: RandStream, s: State, e: Event): (t: State)
    requires Valid(s)
    ensures Valid(t)
  {
    match e
    case WindowClose => s.(running := false)
    case KeyDown(KeyR) => Reset(rand, s)
    case KeyDown(KeyQ) => Fill(rand, s.(running := false))
    case KeyDown(KeySpace) => Fill(rand, s)
    case KeyDown(OtherKey) => s
    case OtherEvent => s
  }

  /** The event-polling loop: the events of one frame, in order. */
  function ApplyAll(rand: RandStream, s: State, events: seq<Event>): (t: State)
    requires Valid(s)
    ensures Valid(t)
    decreases |events|
  {
    if events == [] then s else ApplyAll(rand, Apply(rand, s, events[0]), events[1..])
  }

  /** Events that clear `running`. */
  predicate Stops(e: Event)
  {
    e == WindowClose || e == KeyDown(KeyQ)
  }

  /** The key among R, Q and SPACE that comes last in `events`, if any. */
  function LastPoolKey(events: seq<Event>): (k: Option<Key>)
    ensures k != Some(OtherKey)
    decreases |events|
  {
    if events == [] then None
    else match LastPoolKey(events[1..])
      case Some(k) => Some(k)
      case None =>
        if events[0].KeyDown? && events[0].key != OtherKey then Some(events[0].key) else None
  }

  /** SPACE fills the pool; pressing it again when full changes nothing. */
  lemma FillIdempotent(rand: RandStream, s: State)
    requires Valid(s)
    ensures Fill(rand, Fill(rand, s)) == Fill(rand, s)
    ensures s.count == MaxBalls ==> Apply(rand, s, KeyDown(KeySpace)) == s
  {
  }

  /** Q is a window close followed by SPACE; the window-close event alone
      leaves the pool as it was. */
  lemma QuitKeyFallsThrough(rand: RandStream, s: State)
    requires Valid(s)
    ensures Apply(rand, s, KeyDown(KeyQ)) == Apply(rand, Apply(rand, s, WindowClose), KeyDown(KeySpace))
    ensures !Apply(rand, s, KeyDown(KeyQ)).running && Apply(rand, s, KeyDown(KeyQ)).count == MaxBalls
    ensures Apply(rand, s, WindowClose).count == s.count && Apply(rand, s, WindowClose).balls == s.balls
  {
  }

  /** Events other than the keys R, Q and SPACE (`default: break;` and the
      ignored event types) change nothing but `running`, which a window close
      clears: the primary ball, the array, the cursor and the rand() position
      are kept. */
  lemma {:induction false} NoPoolKeyOnlyRunning(rand: RandStream, s: State, events: seq<Event>)
    requires Valid(s)
    requires forall i :: 0 <= i < |events| ==> !(events[i].KeyDown? && events[i].key != OtherKey)
    ensures ApplyAll(rand, s, events) == s.(running := s.running && forall i :: 0 <= i < |events| ==> !Stops(events[i]))
    decreases |events|
  {
    if events != [] {
      assert forall i :: 1 <= i < |events| ==> events[i] == events[1..][i - 1];
      NoPoolKeyOnlyRunning(rand, Apply(rand, s, events[0]), events[1..]);
    }
  }

  /** Reset draws its velocity from [-n, n-1], one value narrower than the
      [-n, n] of a new ball: n itself is reachable only by a new ball. */
  lemma ResetRangeNarrower()
    ensures SpawnVelocityX(2 * N) == N
    ensures forall raw: nat :: ResetVelocityX(raw) != N
    ensures forall raw: nat :: raw <= 2 * N ==> SpawnVelocityX(raw) == raw - N
    ensures forall raw: nat :: raw < 2 * N ==> ResetVelocityX(raw) == raw - N
  {
  }

  /** After any sequence of events the cursor is decided by the last of the
      keys R, Q and SPACE: 1 after R, MAX_BALLS after Q or SPACE, unchanged
      when there is none. */
  lemma {:induction false} CountAfterEvents(rand: RandStream, s: State, events: seq<Event>)
    requires Valid(s)
    ensures ApplyAll(rand, s, events).count ==
              match LastPoolKey(events)
              case None => s.count
              case Some(KeyR) => 1
              case Some(_) => MaxBalls
    decreases |events|
  {
    if events != [] {
      CountAfterEvents(rand, Apply(rand, s, events[0]), events[1..]);
    }
  }

  /** `running` ends false exactly when some event of the sequence stops the
      loop, since nothing sets it back to true. */
  lemma {:induction false} RunningAfterEvents(rand: RandStream, s: State, events: seq<Event>)
    requires Valid(s)
    ensures ApplyAll(rand, s, events).running <==>
              s.running && forall i :: 0 <= i < |events| ==> !Stops(events[i])
    decreases |events|
  {
    if events != [] {
      RunningAfterEvents(rand, Apply(rand, s, events[0]), events[1..]);
      assert forall i :: 1 <= i < |events| ==> events[i] == events[1..][i - 1];
    }
  }

  /** No event writes `balls[0]`: the primary ball lives outside the array. */
  lemma {:induction false} SlotZeroUntouched(rand: RandStream, s: State, events: seq<Event>)
    requires Valid(s)
    ensures ApplyAll(rand, s, events).balls[0] == s.balls[0]
    decreases |events|
  {
    if events != [] {
      FillContents(rand, s);
      FillContents(rand, s.(running := false));
      SlotZeroUntouched(rand, Apply(rand, s, events[0]), events[1..]);
    }
  }

  /** A stepped ball: the primary ball or an index of the array. */
  datatype Slot = Primary | Pool(index: int)

  /** The order in which one frame steps and draws the balls: the primary
      ball, then `balls[1]` up to `balls[count - 1]`. */
  function StepOrder(count: int): (order: seq<Slot>)
    requires 1 <= count
    ensures |order| == count && order[0] == Primary
    ensures forall k :: 1 <= k < count ==> order[k] == Pool(k)
  {
    [Primary] + seq(count - 1, k => Pool(k + 1))
  }

  /** Each live ball occurs once in the step order; `balls[0]` and the slots
      past the cursor never occur. */
  lemma StepOrderSlots(count: int, j: int)
    requires 1 <= count
    ensures Pool(j) in StepOrder(count) <==> 1 <= j < count
    ensures forall a, b :: 0 <= a < b < count ==> StepOrder(count)[a] != StepOrder(count)[b]
  {
    var order := StepOrder(count);
    if 1 <= j < count {
      assert order[j] == Pool(j);
    }
  }

  /** The frame's physics: the step applied once to the primary ball and
      once to each live array slot from 1 on; the rest of the array is left
      alone. */
  function Step(update: Update, dt: real, s: State): (t: State)
    requires Valid(s)
    ensures Valid(t) && t.count == s.count && t.running == s.running && t.randCalls == s.randCalls
    ensures t.ball == update(s.ball, Wall, dt)
    ensures forall i :: 1 <= i < s.count ==> t.balls[i] == update(s.balls[i], Wall, dt)
    ensures t.balls[0] == s.balls[0]
    ensures forall i :: s.count <= i < MaxBalls ==> t.balls[i] == s.balls[i]
  {
    s.(ball := update(s.ball, Wall, dt),
       balls := seq(MaxBalls, i requires 0 <= i < MaxBalls =>
                      if 1 <= i < s.count then update(s.balls[i], Wall, dt) else s.balls[i]))
  }

  /** What one frame gets from the platform: its events and its delta time. */
  datatype FrameInput = FrameInput(events: seq<Event>, dt: real)

  /** One iteration of `while (running)`: the events, then the step. */
  function RunFrame(rand: RandStream, update: Update, s: State, input: FrameInput): (t: State)
    requires Valid(s)
    ensures Valid(t)
  {
    Step(update, input.dt, ApplyAll(rand, s, input.events))
  }

  /** The main loop over the frames the platform delivers, until `running`
      is cleared or the frames run out. */
  function Run(rand: RandStream, update: Update, s: State, frames: seq<FrameInput>): (t: State)
    requires Valid(s)
    ensures Valid(t)
    decreases |frames|
  {
    if !s.running || frames == [] then s
    else Run(rand, update, RunFrame(rand, update, s, frames[0]), frames[1..])
  }

  /** A frame whose events stop the loop is still stepped, and is the last. */
  lemma StopEndsRun(rand: RandStream, update: Update, s: State, frames: seq<FrameInput>, i: int)
    requires Valid(s) && s.running && frames != []
    requires 0 <= i < |frames[0].events| && Stops(frames[0].events[i])
    ensures Run(rand, update, s, frames) == RunFrame(rand, update, s, frames[0])
    ensures !Run(rand, update, s, frames).running
  {
    RunningAfterEvents(rand, s, frames[0].events);
  }
}
