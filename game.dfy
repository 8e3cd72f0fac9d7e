/** The game engine of ular.js: the module-level state (grid, snake,
    direction, food, score, high score, speed, tempo settings, the interval
    timer) as the fields of one object, and the operations that update it in
    place. */
module SnakeGame {
  import opened SnakeRules

  /** The interval timer. NoTimer is the handle before the first schedule;
      clearing a timer stops it but keeps the handle, so a stopped timer is
      Scheduled(period, false). */
  datatype Timer = NoTimer | Scheduled(period: int, running: bool)

  datatype EndReason = WallCollision | SelfCollision

  /** Game over is the state in which the timer has been cleared. */
  datatype Phase = Playing | Over(reason: EndReason)

  /** The injected random source: one cell per draw of the food spawner,
      enough for every draw, each inside the grid. */
  predicate SamplesFit(g: Grid, samples: seq<Pos>) {
    MaxTries <= |samples| && forall i :: 0 <= i < |samples| ==> InGrid(g, samples[i])
  }

  class Engine {
    var grid: Grid
    var wall: WallMode
    var snake: seq<Pos>
    var direction: Pos
    var food: Pos
    var score: nat
    var highScore: nat
    var speed: int
    var tempoStart: int
    var tempoMax: int
    var tempoStep: int
    var timer: Timer
    var phase: Phase

    /** The configuration every level keeps. */
    ghost predicate ConfigOk()
      reads this
    {
      Positive(grid) && 0 <= tempoStart <= tempoMax && tempoStep >= 0
    }

    /** The engine invariant: the snake is one segment longer than the
        score, the direction is (0,0) or a unit vector, and the timer runs
        exactly while the game is being played. */
    ghost predicate Valid()
      reads this
    {
      ConfigOk() &&
      |snake| == score + 1 &&
      DirOk(direction) &&
      timer.Scheduled? && (timer.running <==> phase == Playing)
    }

    /** Where the head goes on the next tick; None when it hits a solid wall. */
    ghost function NextHead(): Option<Pos>
      reads this
      requires |snake| > 0
    {
      Resolve(wall, grid, RawHead(snake[0], direction))
    }

    /** Page start-up: the initial globals, the saved high score, the
        classic level and a reset. */
    constructor (savedHigh: nat, mode: WallMode, autoStart: bool, samples: seq<Pos>)
      requires SamplesFit(Grid(20, 20, 20), samples)
      ensures Valid() && phase == Playing
      ensures grid == Grid(20, 20, 20) && wall == mode && highScore == savedHigh
      ensures tempoStart == 80 && tempoMax == 220 && tempoStep == 10
      ensures snake == [Pos(10, 10)] && score == 0
      ensures food == SpawnFrom(snake, samples, 0).food
      ensures speed == 80 && timer == Scheduled(80, true)
      ensures direction == if autoStart then Pos(1, 0) else Still
    {
      grid := Grid(20, 20, 20);
      wall := mode;
      snake := [];
      direction := Still;
      food := Pos(0, 0);
      score := 0;
      highScore := savedHigh;
      timer := NoTimer;
      speed := 100;
      tempoStart, tempoMax, tempoStep := 80, 220, 12;
      phase := Playing;
      new;
      SetLevel("classic");
      Reset(autoStart, samples);
    }

    /** Selects a level from the table; an unknown name changes nothing. */
    method SetLevel(level: string)
      modifies this`grid, this`speed, this`tempoStart, this`tempoMax, this`tempoStep
      ensures LevelConfig(level).Some? ==>
        var l := LevelConfig(level).value;
        grid == l.grid && speed == l.speed &&
        tempoStart == l.tempoStart && tempoMax == l.tempoMax && tempoStep == l.tempoStep
      ensures LevelConfig(level).None? ==>
        grid == old(grid) && speed == old(speed) &&
        tempoStart == old(tempoStart) && tempoMax == old(tempoMax) && tempoStep == old(tempoStep)
      ensures old(ConfigOk()) ==> ConfigOk()
      ensures old(Valid()) ==> Valid()
    {
      if level == "classic" {
        grid := Grid(20, 20, 20); speed := 100;
        tempoStart, tempoMax, tempoStep := 80, 220, 10;
      } else if level == "dense" {
        grid := Grid(25, 25, 16); speed := 80;
        tempoStart, tempoMax, tempoStep := 60, 200, 8;
      } else if level == "wide" {
        grid := Grid(30, 15, 20); speed := 90;
        tempoStart, tempoMax, tempoStep := 90, 260, 12;
      }
    }

    /** The wall-mode selector; the next tick reads the new mode. */
    method SetWallMode(mode: WallMode)
      modifies this`wall
      ensures wall == mode
      ensures old(Valid()) ==> Valid()
    {
      wall := mode;
    }

    /** A direction intent from the keyboard or the d-pad, under the axis lock. */
    method ApplyDirection(key: Key)
      modifies this`direction
      ensures direction == Steer(old(direction), key)
      ensures old(direction) == Still ==> direction == Delta(key)
      ensures old(Valid()) ==> Valid()
    {
      if key == Up && direction.y == 0 {
        direction := Pos(0, -1);
      } else if key == Down && direction.y == 0 {
        direction := Pos(0, 1);
      } else if key == Left && direction.x == 0 {
        direction := Pos(-1, 0);
      } else if key == Right && direction.x == 0 {
        direction := Pos(1, 0);
      }
    }

    /** Clears the interval if there is one; the handle stays set. */
    method ClearTimer()
      modifies this`timer
      ensures timer == if old(timer).NoTimer? then NoTimer else Scheduled(old(timer).period, false)
    {
      if timer.Scheduled? {
        timer := timer.(running := false);
      }
    }

    /** Sets the speed to the tempo for the current score and restarts the
        interval with it when there was no timer yet, the speed changed, or
        a restart is forced. */
    method UpdateSpeed(resetInterval: bool) returns (rescheduled: bool)
      modifies this`speed, this`timer
      ensures speed == TempoForScore(tempoStart, tempoMax, tempoStep, score)
      ensures rescheduled == (old(timer).NoTimer? || speed != old(speed) || resetInterval)
      ensures timer == if rescheduled then Scheduled(speed, true) else old(timer)
    {
      var newSpeed := TempoForScore(tempoStart, tempoMax, tempoStep, score);
      if timer.Scheduled? {
        rescheduled := newSpeed != speed || resetInterval;
        if rescheduled {
          speed := newSpeed;
          timer := Scheduled(speed, true);
        }
      } else {
        rescheduled := true;
        speed := newSpeed;
        timer := Scheduled(speed, true);
      }
    }

    /** Draws cells until one is off the snake or MaxTries draws were made;
        the last draw becomes the food. */
    method SpawnFood(samples: seq<Pos>) returns (tries: nat)
      requires SamplesFit(grid, samples)
      modifies this`food
      ensures Spawned(food, tries) == SpawnFrom(snake, samples, 0)
      ensures 1 <= tries <= MaxTries && InGrid(grid, food)
      ensures tries < MaxTries ==> food !in snake
    {
      tries := 0;
      food := samples[tries];
      tries := tries + 1;
      while food in snake && tries < MaxTries
        invariant 1 <= tries <= MaxTries
        invariant food == samples[tries - 1]
        invariant SpawnFrom(snake, samples, tries - 1) == SpawnFrom(snake, samples, 0)
        decreases MaxTries - tries
      {
        SpawnDrawsAgain(snake, samples, tries - 1);
        food := samples[tries];
        tries := tries + 1;
      }
      SpawnStops(snake, samples, tries - 1);
    }

    /** Starts a new game: a one-cell snake in the middle of the grid, score
        0, fresh food, the timer restarted at the start tempo, and the snake
        sent right when auto-start is on. */
    method Reset(autoStart: bool, samples: seq<Pos>)
      requires ConfigOk() && SamplesFit(grid, samples)
      modifies this
      ensures Valid() && phase == Playing
      ensures grid == old(grid) && wall == old(wall) && highScore == old(highScore)
      ensures tempoStart == old(tempoStart) && tempoMax == old(tempoMax) && tempoStep == old(tempoStep)
      ensures snake == [Pos(grid.cols / 2, grid.rows / 2)] && score == 0
      ensures food == SpawnFrom(snake, samples, 0).food
      ensures speed == tempoStart && timer == Scheduled(tempoStart, true)
      ensures direction == if autoStart then Pos(1, 0) else Still
    {
      snake := [Pos(grid.cols / 2, grid.rows / 2)];
      direction := Still;
      score := 0;
      var tries := SpawnFood(samples);
      ClearTimer();
      var rescheduled := UpdateSpeed(true);
      if autoStart && direction.x == 0 && direction.y == 0 {
        direction := Pos(1, 0);
      }
      phase := Playing;
    }

    /** One tick of the interval timer. The head moves one step in the
        current direction (also when that is (0,0)) and is resolved against
        the wall mode. A solid wall ends the game before anything changes.
        Otherwise the snake grows onto food (score, high score, new food,
        tempo) or shifts by one cell, and then ends the game if the head
        landed on its own body. */
    method Tick(samples: seq<Pos>)
      requires Valid() && phase == Playing && SamplesFit(grid, samples)
      modifies this
      ensures Valid()
      ensures grid == old(grid) && wall == old(wall) && direction == old(direction)
      ensures tempoStart == old(tempoStart) && tempoMax == old(tempoMax) && tempoStep == old(tempoStep)
      // hitting a solid wall
      ensures old(NextHead()).None? ==>
        phase == Over(WallCollision) && timer == Scheduled(old(timer).period, false) &&
        snake == old(snake) && food == old(food) && score == old(score) &&
        highScore == old(highScore) && speed == old(speed)
      // a plain move: the tail follows the head
      ensures old(NextHead()).Some? && old(NextHead()).value != old(food) ==>
        snake == [old(NextHead()).value] + old(snake)[..|old(snake)| - 1] &&
        |snake| == |old(snake)| && score == old(score) && food == old(food) &&
        highScore == old(highScore) && speed == old(speed) && timer.period == old(timer).period
      // eating: the snake grows by the head, the score by one
      ensures old(NextHead()) == Some(old(food)) ==>
        snake == [old(food)] + old(snake) && |snake| == |old(snake)| + 1 &&
        score == old(score) + 1 &&
        highScore == (if score > old(highScore) then score else old(highScore)) &&
        highScore >= score &&
        food == SpawnFrom(snake, samples, 0).food && InGrid(grid, food) &&
        speed == TempoForScore(tempoStart, tempoMax, tempoStep, score) &&
        timer.period == (if speed != old(speed) then speed else old(timer).period)
      // after a move, the head is in the grid and the game goes on unless it hit the body
      ensures old(NextHead()).Some? ==>
        InGrid(grid, snake[0]) &&
        phase == (if CheckCollision(snake, snake[0]) then Over(SelfCollision) else Playing)
      // a snake that has not been started stays where it is
      ensures (old(direction) == Still && |old(snake)| == 1 && InGrid(grid, old(snake)[0]) &&
               old(food) != old(snake)[0]) ==>
        snake == old(snake) && score == old(score) && phase == Playing
    {
      var next := ResolveHead();
      if next.None? {
        phase := Over(WallCollision);
        ClearTimer();
        return;
      }
      var head := next.value;
      if head == food {
        EatFood(head, samples);
      } else {
        snake := [head] + snake;
        snake := snake[..|snake| - 1];
      }
      if CheckCollision(snake, head) {
        phase := Over(SelfCollision);
        ClearTimer();
      }
    }

    /** The first half of a tick: the raw head one step from the current
        head, wrapped coordinate by coordinate in wrap mode, or None when it
        leaves the grid in solid mode. */
    method ResolveHead() returns (next: Option<Pos>)
      requires |snake| > 0
      ensures next == NextHead()
      ensures next.Some? && Positive(grid) ==> InGrid(grid, next.value)
    {
      var raw := RawHead(snake[0], direction);
      var head := raw;
      if wall == Wrap {
        if head.x < 0 { head := head.(x := grid.cols - 1); }
        if head.x >= grid.cols { head := head.(x := 0); }
        if head.y < 0 { head := head.(y := grid.rows - 1); }
        if head.y >= grid.rows { head := head.(y := 0); }
      } else {
        if raw.x < 0 || raw.x >= grid.cols || raw.y < 0 || raw.y >= grid.rows {
          return None;
        }
      }
      next := Some(head);
    }

    /** The head lands on the food: the snake grows by the head, the score
        by one, the high score follows the score, new food is drawn and the
        tempo is updated for the new score. */
    method EatFood(head: Pos, samples: seq<Pos>)
      requires Valid() && phase == Playing && SamplesFit(grid, samples)
      modifies this
      ensures Valid() && phase == Playing
      ensures grid == old(grid) && wall == old(wall) && direction == old(direction)
      ensures tempoStart == old(tempoStart) && tempoMax == old(tempoMax) && tempoStep == old(tempoStep)
      ensures snake == [head] + old(snake) && score == old(score) + 1
      ensures highScore == (if score > old(highScore) then score else old(highScore))
      ensures food == SpawnFrom(snake, samples, 0).food && InGrid(grid, food)
      ensures speed == TempoForScore(tempoStart, tempoMax, tempoStep, score)
      ensures timer == if speed != old(speed) then Scheduled(speed, true) else old(timer)
    {
      snake := [head] + snake;
      score := score + 1;
      if score > highScore {
        highScore := score;
      }
      var tries := SpawnFood(samples);
      var rescheduled := UpdateSpeed(false);
    }
  }

  /** The classic level in wrap mode: the snake starts at (10,10) with food
      forced to (11,10); steering right and one tick eat the food, grow the
      snake to [(11,10),(10,10)], raise the score to 1 and restart the timer
      at 90 ms. */
  method EndToEndScenario()
  {
    var first := seq(MaxTries, i => Pos(11, 10));
    var e := new Engine(0, Wrap, false, first);
    assert SpawnFrom([Pos(10, 10)], first, 0).food == Pos(11, 10);
    assert e.food == Pos(11, 10) && e.direction == Still;
    e.ApplyDirection(Right);
    assert e.direction == Pos(1, 0);
    var later := seq(MaxTries, i => Pos(0, 0));
    assert e.NextHead() == Some(Pos(11, 10));
    e.Tick(later);
    assert e.snake == [Pos(11, 10), Pos(10, 10)];
    assert e.score == 1 && e.highScore == 1;
    assert e.speed == 90 && e.timer == Scheduled(90, true);
    assert e.phase == Playing;
  }
}
