/** The pure rules of the snake game: grid geometry, the wall policy, the
    axis-locked steering rule, the tempo curve, self-collision, the
    bounded-retry food sampler and the level table. The engine in game.dfy
    applies them to its state. */
module SnakeRules {

  datatype Option<T> = None | Some(value: T)

  /** A grid cell. Coordinates are unbounded; whether a cell is valid depends
      on the grid and the wall policy. */
  datatype Pos = Pos(x: int, y: int)

  datatype Grid = Grid(cols: int, rows: int, cellSize: int)

  datatype WallMode = Wrap | Solid

  /** The four direction intents delivered by the arrow keys and the d-pad. */
  datatype Key = Up | Down | Left | Right

  /** The zero direction: the snake has not been started yet. */
  const Still := Pos(0, 0)

  /** Number of samples the food spawner draws before giving up. */
  const MaxTries := 1000

  predicate InGrid(g: Grid, p: Pos) {
    0 <= p.x < g.cols && 0 <= p.y < g.rows
  }

  predicate Positive(g: Grid) {
    g.cols > 0 && g.rows > 0
  }

  /** Both components of a step lie in {-1, 0, 1}. */
  predicate UnitComponents(d: Pos) {
    -1 <= d.x <= 1 && -1 <= d.y <= 1
  }

  /** A direction is (0,0) or a unit vector on exactly one axis. */
  predicate DirOk(d: Pos) {
    d == Still ||
    (d.x == 0 && (d.y == 1 || d.y == -1)) ||
    (d.y == 0 && (d.x == 1 || d.x == -1))
  }

  function RawHead(head: Pos, d: Pos): Pos {
    Pos(head.x + d.x, head.y + d.y)
  }

  // ---------------------------------------------------------------------
  // Wall policy

  /** One axis of wrap mode: two independent tests, the first resetting a
      negative coordinate to n - 1 and the second an overflowing one to 0. */
  function WrapAxis(v: int, n: int): int {
    var v1 := if v < 0 then n - 1 else v;
    if v1 >= n then 0 else v1
  }

  function WrapHead(g: Grid, raw: Pos): Pos {
    Pos(WrapAxis(raw.x, g.cols), WrapAxis(raw.y, g.rows))
  }

  /** Resolves a raw next head against the grid: wrap mode always yields a
      cell, solid mode yields None (the snake hit the wall) exactly when the
      raw head lies outside the grid. */
  function Resolve(wall: WallMode, g: Grid, raw: Pos): (r: Option<Pos>)
    ensures wall == Solid ==> (r.Some? <==> InGrid(g, raw))
    ensures wall == Wrap ==> r.Some?
    ensures r.Some? && Positive(g) ==> InGrid(g, r.value)
    ensures InGrid(g, raw) ==> r == Some(raw)
  {
    match wall
    case Wrap => Some(WrapHead(g, raw))
    case Solid => if InGrid(g, raw) then Some(raw) else None
  }

  /** For a unit step from a cell of the grid, wrapping is arithmetic modulo
      the grid size (Dafny's % is Euclidean, so -1 % n == n - 1). */
  lemma WrapAxisIsModular(v: int, n: int)
    requires n > 0 && -1 <= v <= n
    ensures WrapAxis(v, n) == v % n
  {
  }

  lemma WrapIsModular(g: Grid, head: Pos, d: Pos)
    requires Positive(g) && InGrid(g, head) && UnitComponents(d)
    ensures WrapHead(g, RawHead(head, d)) == Pos((head.x + d.x) % g.cols, (head.y + d.y) % g.rows)
  {
    WrapAxisIsModular(head.x + d.x, g.cols);
    WrapAxisIsModular(head.y + d.y, g.rows);
  }

  /** The independent tests are not modular arithmetic for longer steps:
      two cells left of column 0 lands on the last column, not the one
      before it (the Euclidean remainder). Such a raw head cannot arise
      while the direction is a unit step, so the tick never sees it. */
  lemma WrapIsNotModularForLongSteps()
    ensures WrapHead(Grid(20, 20, 20), Pos(-2, 0)) == Pos(19, 0)
    ensures (-2) % 20 == 18
  {
  }

  // ---------------------------------------------------------------------
  // Steering

  function Delta(k: Key): (d: Pos)
    ensures DirOk(d) && d != Still
  {
    match k
    case Up => Pos(0, -1)
    case Down => Pos(0, 1)
    case Left => Pos(-1, 0)
    case Right => Pos(1, 0)
  }

  predicate Vertical(k: Key) {
    k == Up || k == Down
  }

  /** The axis lock: a vertical key needs a direction with no vertical
      component, a horizontal key one with no horizontal component. */
  predicate Accepts(d: Pos, k: Key) {
    if Vertical(k) then d.y == 0 else d.x == 0
  }

  /** The new direction after key k is pressed while moving in direction d. */
  function Steer(d: Pos, k: Key): (r: Pos)
    ensures DirOk(d) ==> DirOk(r)
    ensures r == d || r == Delta(k)
  {
    if Accepts(d, k) then Delta(k) else d
  }

  /** From rest every key is taken. */
  lemma SteerFromRest(k: Key)
    ensures Steer(Still, k) == Delta(k)
  {
  }

  /** While moving, a key on the current axis (a repeat or a 180-degree
      reversal) is ignored and a key on the other axis is taken. */
  lemma SteerAxisLock(d: Pos, k: Key)
    requires DirOk(d) && d != Still
    ensures (d.x == 0) == Vertical(k) ==> Steer(d, k) == d
    ensures (d.x == 0) != Vertical(k) ==> Steer(d, k) == Delta(k)
  {
  }

  /** A single key never turns a moving direction into its opposite. */
  lemma SteerNeverReverses(d: Pos, k: Key)
    requires DirOk(d) && d != Still
    ensures Steer(d, k) != Pos(-d.x, -d.y)
  {
  }

  /** Whatever keys arrive, the direction stays (0,0) or a unit vector. */
  function SteerAll(d: Pos, keys: seq<Key>): Pos
    decreases |keys|
  {
    if keys == [] then d else SteerAll(Steer(d, keys[0]), keys[1..])
  }

  /** The lock is checked against the direction as already updated by
      earlier keys, so two keys between ticks do reverse it: moving right,
      Up then Left leaves the snake heading left. */
  lemma SteerTwoKeysReverse()
    ensures SteerAll(Pos(1, 0), [Up, Left]) == Pos(-1, 0)
  {
    assert SteerAll(Pos(1, 0), [Up, Left]) == SteerAll(Pos(0, -1), [Left]);
    assert SteerAll(Pos(0, -1), [Left]) == SteerAll(Pos(-1, 0), []);
  }

  lemma {:induction false} SteerAllKeepsDirOk(d: Pos, keys: seq<Key>)
    requires DirOk(d)
    ensures DirOk(SteerAll(d, keys))
    decreases |keys|
  {
    if keys != [] {
      SteerAllKeepsDirOk(Steer(d, keys[0]), keys[1..]);
    }
  }

  // ---------------------------------------------------------------------
  // Tempo

  /** The tick interval for a score: the start interval grown by step per
      point, capped at max. */
  function TempoForScore(start: int, max: int, step: int, sc: int): (r: int)
    ensures r <= max
    ensures r <= start + sc * step
    ensures r == max || r == start + sc * step
  {
    if max < start + sc * step then max else start + sc * step
  }

  /** A higher score never gives a shorter interval. */
  lemma TempoMonotone(start: int, max: int, step: int, s1: int, s2: int)
    requires step >= 0 && s1 <= s2
    ensures TempoForScore(start, max, step, s1) <= TempoForScore(start, max, step, s2)
  {
  }

  /** The classic level's curve: 80 ms at score 0, 90 ms at 1, capped at
      220 ms from score 14 on. */
  lemma TempoClassicExamples()
    ensures TempoForScore(80, 220, 10, 0) == 80
    ensures TempoForScore(80, 220, 10, 1) == 90
    ensures TempoForScore(80, 220, 10, 14) == 220
    ensures TempoForScore(80, 220, 10, 50) == 220
  {
  }

  // ---------------------------------------------------------------------
  // Self-collision

  /** The new head hits the body when it equals some segment other than the
      head itself (index 0). */
  function CheckCollision(snake: seq<Pos>, head: Pos): (r: bool)
    ensures r <==> exists i :: 1 <= i < |snake| && snake[i] == head
    ensures |snake| <= 1 ==> !r
  {
    |snake| > 1 && head in snake[1..]
  }

  /** The snake [(5,5),(4,5),(3,5)] shifted one cell right (new head
      (6,5), tail dropped) does not collide; a head equal to a later
      segment does. */
  lemma CollisionScenario()
    ensures var s := [Pos(5, 5), Pos(4, 5), Pos(3, 5)];
      !CheckCollision([Pos(6, 5)] + s[..|s| - 1], Pos(6, 5))
    ensures CheckCollision([Pos(4, 5), Pos(5, 5), Pos(4, 5)], Pos(4, 5))
  {
    assert [Pos(4, 5), Pos(5, 5), Pos(4, 5)][2] == Pos(4, 5);
  }

  // ---------------------------------------------------------------------
  // Food spawner

  datatype Spawned = Spawned(food: Pos, tries: nat)

  /** The spawner from its t-th draw on: take sample t; draw again while the
      sample lies on the snake and fewer than MaxTries draws were made. */
  function SpawnFrom(snake: seq<Pos>, samples: seq<Pos>, t: nat): (r: Spawned)
    requires t < MaxTries <= |samples|
    ensures t < r.tries <= MaxTries
    ensures r.food == samples[r.tries - 1]
    ensures r.tries < MaxTries ==> r.food !in snake
    decreases MaxTries - t
  {
    if samples[t] in snake && t + 1 < MaxTries then SpawnFrom(snake, samples, t + 1)
    else Spawned(samples[t], t + 1)
  }

  /** Every draw before the last one landed on the snake: the spawner keeps
      the first free sample. */
  lemma {:induction false} SpawnSkipsOnlyOccupied(snake: seq<Pos>, samples: seq<Pos>, t: nat, j: nat)
    requires t < MaxTries <= |samples|
    requires t <= j < SpawnFrom(snake, samples, t).tries - 1
    ensures samples[j] in snake
    decreases MaxTries - t
  {
    if j > t {
      SpawnSkipsOnlyOccupied(snake, samples, t + 1, j);
    }
  }

  /** One more draw: the sample lies on the snake and draws remain. */
  lemma SpawnDrawsAgain(snake: seq<Pos>, samples: seq<Pos>, t: nat)
    requires t + 1 < MaxTries <= |samples| && samples[t] in snake
    ensures SpawnFrom(snake, samples, t) == SpawnFrom(snake, samples, t + 1)
  {
  }

  /** The last draw: the sample is free or no draws remain. */
  lemma SpawnStops(snake: seq<Pos>, samples: seq<Pos>, t: nat)
    requires t < MaxTries <= |samples| && (samples[t] !in snake || t + 1 == MaxTries)
    ensures SpawnFrom(snake, samples, t) == Spawned(samples[t], t + 1)
  {
  }

  /** When every draw lands on the snake the spawner gives up after MaxTries
      draws and leaves the food on the snake. */
  lemma SpawnMayLandOnSnake(snake: seq<Pos>, samples: seq<Pos>)
    requires MaxTries <= |samples|
    requires forall j :: 0 <= j < |samples| ==> samples[j] in snake
    ensures SpawnFrom(snake, samples, 0).tries == MaxTries
    ensures SpawnFrom(snake, samples, 0).food in snake
  {
    var r := SpawnFrom(snake, samples, 0);
    assert samples[r.tries - 1] in snake;
  }

  // ---------------------------------------------------------------------
  // Levels

  datatype Level = Level(grid: Grid, speed: int, tempoStart: int, tempoMax: int, tempoStep: int)

  predicate LevelOk(l: Level) {
    Positive(l.grid) && l.grid.cellSize > 0 &&
    0 <= l.tempoStart <= l.tempoMax && l.tempoStep >= 0
  }

  /** The level table; names outside it select nothing. */
  function LevelConfig(name: string): (r: Option<Level>)
    ensures r.Some? <==> name in {"classic", "dense", "wide"}
    ensures r.Some? ==> LevelOk(r.value)
  {
    if name == "classic" then Some(Level(Grid(20, 20, 20), 100, 80, 220, 10))
    else if name == "dense" then Some(Level(Grid(25, 25, 16), 80, 60, 200, 8))
    else if name == "wide" then Some(Level(Grid(30, 15, 20), 90, 90, 260, 12))
    else None
  }
}
