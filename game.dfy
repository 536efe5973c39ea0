/** game/src/game.c: the static level tables, building the map from them,
    the player's per-update movement, and the render entry point. */
module Game {
  import opened Numeric
  import opened MapData
  import opened Renderer
  import opened GameRender

  /** `dnf_game_action` of core/include/dnf_gametypes.h, in declaration order. */
  datatype GameAction =
    | MoveForward | MoveBackward | MoveLeft | MoveRight
    | MoveUp | MoveDown
    | Interact
    | Attack1 | Attack2
    | Menu

  /** raylib's `PI`; `TAU` is the full turn. */
  const PI: real := 3.14159265358979323846
  const TAU: real := 2.0 * PI

  /** `speed` (units per second) and `rot_speed` (radians per update). */
  const SPEED: real := 100.0
  const ROT_SPEED: real := 0.02

  /** The movement clamp of `dnf_game_update`. */
  const MIN_X: real := 20.0
  const MAX_X: real := 600.0
  const MIN_Y: real := 20.0
  const MAX_Y: real := 450.0

  /** `wall_per_sector` and `sector_n`: 25 walls are allocated, 5 sectors. */
  const WALL_PER_SECTOR: int := 5
  const SECTOR_N: int := 5

  // ---------------------------------------------------------------------
  // The level tables
  // ---------------------------------------------------------------------

  /** A `load_sectors` entry: the initialiser leaves `center` and `z_depth` zero. */
  function LoadSector(wallStart: int, wallEnd: int, baseLevel: real, height: real): (r: Sector)
  {
    Sector(wallStart, wallEnd, baseLevel, height, Vec2(0.0, 0.0), 0.0)
  }

  /** `load_sectors`: four square rooms and one non-convex room. */
  const LOAD_SECTORS: seq<Sector> := [
    LoadSector(0, 4, 0.0, 40.0),
    LoadSector(4, 8, 0.0, 40.0),
    LoadSector(8, 12, 0.0, 40.0),
    LoadSector(12, 16, 0.0, 40.0),
    LoadSector(16, 20, 0.0, 80.0)
  ]

  function W(x1: real, y1: real, x2: real, y2: real, c: Color): (r: Wall)
  {
    Wall(Vec2(x1, y1), Vec2(x2, y2), c)
  }

  /** `load_walls`: four walls per room, each room a closed loop. */
  const LOAD_WALLS: seq<Wall> := [
    W(100.0, 132.0, 132.0, 132.0, RED),
    W(132.0, 132.0, 132.0, 100.0, MAROON),
    W(132.0, 100.0, 100.0, 100.0, RED),
    W(100.0, 100.0, 100.0, 132.0, MAROON),

    W(164.0, 132.0, 196.0, 132.0, YELLOW),
    W(196.0, 132.0, 196.0, 100.0, GOLD),
    W(196.0, 100.0, 164.0, 100.0, YELLOW),
    W(164.0, 100.0, 164.0, 132.0, GOLD),

    W(164.0, 196.0, 196.0, 196.0, GREEN),
    W(196.0, 196.0, 196.0, 164.0, LIME),
    W(196.0, 164.0, 164.0, 164.0, GREEN),
    W(164.0, 164.0, 164.0, 196.0, LIME),

    W(100.0, 196.0, 132.0, 196.0, PURPLE),
    W(132.0, 196.0, 132.0, 164.0, VIOLET),
    W(132.0, 164.0, 100.0, 164.0, PURPLE),
    W(100.0, 164.0, 100.0, 196.0, VIOLET),

    W(250.0, 250.0, 400.0, 250.0, BLUE),
    W(400.0, 250.0, 270.0, 270.0, DARKBLUE),
    W(270.0, 270.0, 250.0, 400.0, BLUE),
    W(250.0, 400.0, 250.0, 250.0, DARKBLUE)
  ]

  /** Every sector range of the tables is non-empty and lies inside the 20
      table walls, hence inside the 25 allocated ones; the ranges follow one
      another, so together they cover the table exactly once. */
  lemma LoadTablesWellFormed()
    ensures |LOAD_SECTORS| == SECTOR_N && |LOAD_WALLS| == 20
    ensures 20 <= WALL_PER_SECTOR * SECTOR_N
    ensures forall s :: 0 <= s < |LOAD_SECTORS| ==>
      0 <= LOAD_SECTORS[s].wallStart < LOAD_SECTORS[s].wallEnd <= |LOAD_WALLS|
    ensures LOAD_SECTORS[0].wallStart == 0 && LOAD_SECTORS[|LOAD_SECTORS| - 1].wallEnd == |LOAD_WALLS|
    ensures forall s :: 0 < s < |LOAD_SECTORS| ==> LOAD_SECTORS[s].wallStart == LOAD_SECTORS[s - 1].wallEnd
  {
  }

  /** `map.wall_count` is `wall_per_sector`, not the number of walls the
      ranges cover: the field does not count the walls. */
  lemma WallCountIsNotWallsCopied()
    ensures WALL_PER_SECTOR != LOAD_SECTORS[|LOAD_SECTORS| - 1].wallEnd - LOAD_SECTORS[0].wallStart
  {
  }

  // ---------------------------------------------------------------------
  // Sector centres
  // ---------------------------------------------------------------------

  function Midpoint(w: Wall): (r: Vec2)
  {
    Vec2((w.start.x + w.end.x) / 2.0, (w.start.y + w.end.y) / 2.0)
  }

  /** The sum of the midpoints of the walls `start .. end-1`. */
  function MidpointSum(walls: seq<Wall>, start: int, end: int): (r: Vec2)
    requires 0 <= start && (end <= start || end <= |walls|)
    decreases end - start
  {
    if end <= start then Vec2(0.0, 0.0)
    else
      var s := MidpointSum(walls, start, end - 1);
      var m := Midpoint(walls[end - 1]);
      Vec2(s.x + m.x, s.y + m.y)
  }

  /** The centre `dnf_game_init` stores: the mean of the wall midpoints. */
  function SectorCenter(walls: seq<Wall>, start: int, end: int): (r: Vec2)
    requires 0 <= start < end <= |walls|
  {
    Mean(MidpointSum(walls, start, end), end - start)
  }

  /** A sum of `k` points divided by `k`, coordinate by coordinate. */
  function Mean(sum: Vec2, k: int): (r: Vec2)
    requires k != 0
  {
    Vec2(sum.x / k as real, sum.y / k as real)
  }

  /** Every endpoint of the walls `start .. end-1` lies in the box. */
  ghost predicate InBox(walls: seq<Wall>, start: int, end: int, lo: Vec2, hi: Vec2)
    requires 0 <= start && end <= |walls|
  {
    forall w :: start <= w < end ==>
      && lo.x <= walls[w].start.x <= hi.x && lo.y <= walls[w].start.y <= hi.y
      && lo.x <= walls[w].end.x <= hi.x && lo.y <= walls[w].end.y <= hi.y
  }

  /** `k` copies of `v` added up. */
  function Times(k: int, v: real): (r: real)
    decreases k
  {
    if k <= 0 then 0.0 else Times(k - 1, v) + v
  }

  lemma {:induction false} TimesIsProduct(k: nat, v: real)
    ensures Times(k, v) == k as real * v
  {
    if k > 0 {
      TimesIsProduct(k - 1, v);
      assert (k - 1) as real * v + v == k as real * v;
    }
  }

  lemma {:induction false} MidpointSumInBox(walls: seq<Wall>, start: int, end: int, lo: Vec2, hi: Vec2)
    requires 0 <= start <= end <= |walls| && InBox(walls, start, end, lo, hi)
    decreases end - start
    ensures var s := MidpointSum(walls, start, end);
      && Times(end - start, lo.x) <= s.x <= Times(end - start, hi.x)
      && Times(end - start, lo.y) <= s.y <= Times(end - start, hi.y)
  {
    if start < end {
      MidpointSumInBox(walls, start, end - 1, lo, hi);
      var m := Midpoint(walls[end - 1]);
      assert lo.x <= m.x <= hi.x && lo.y <= m.y <= hi.y;
    }
  }

  /** A sector's centre lies inside any box that holds all of its walls. */
  lemma CenterInBox(walls: seq<Wall>, start: int, end: int, lo: Vec2, hi: Vec2)
    requires 0 <= start < end <= |walls| && InBox(walls, start, end, lo, hi)
    ensures var c := SectorCenter(walls, start, end);
      lo.x <= c.x <= hi.x && lo.y <= c.y <= hi.y
  {
    MidpointSumInBox(walls, start, end, lo, hi);
    var s := MidpointSum(walls, start, end);
    MeanBounds(s.x, end - start, lo.x, hi.x);
    MeanBounds(s.y, end - start, lo.y, hi.y);
  }

  lemma MeanBounds(s: real, k: int, lo: real, hi: real)
    requires k > 0 && Times(k, lo) <= s <= Times(k, hi)
    ensures lo <= s / k as real <= hi
  {
    TimesIsProduct(k, lo);
    TimesIsProduct(k, hi);
    DivideBounds(s, k as real, lo, hi);
  }

  lemma DivideBounds(s: real, n: real, lo: real, hi: real)
    requires n > 0.0 && n * lo <= s <= n * hi
    ensures lo <= s / n <= hi
  {
    assert s / n * n == s;
  }

  /** The first room, the square (100..132)², has its centre in the middle. */
  lemma FirstRoomCenter()
    ensures SectorCenter(LOAD_WALLS, 0, 4) == Vec2(116.0, 116.0)
  {
    assert MidpointSum(LOAD_WALLS, 0, 1) == Vec2(116.0, 132.0);
    assert MidpointSum(LOAD_WALLS, 0, 2) == Vec2(248.0, 248.0);
    assert MidpointSum(LOAD_WALLS, 0, 3) == Vec2(364.0, 348.0);
    assert MidpointSum(LOAD_WALLS, 0, 4) == Vec2(464.0, 464.0);
  }

  /** What `dnf_game_init` stores for sector `s`: the table's range and
      levels, and the computed centre (the `z_depth` stays whatever the
      allocation held). */
  ghost predicate BuiltSector(got: Sector, s: int)
    requires 0 <= s < |LOAD_SECTORS|
  {
    var t := LOAD_SECTORS[s];
    && got.wallStart == t.wallStart && got.wallEnd == t.wallEnd
    && got.baseLevel == t.baseLevel && got.height == t.height
    && 0 <= t.wallStart < t.wallEnd <= |LOAD_WALLS|
    && got.center == SectorCenter(LOAD_WALLS, t.wallStart, t.wallEnd)
  }

  /** The inner loop of `dnf_game_init` for one sector: copy its walls from
      the table and add up their midpoints. */
  method CopyWalls(walls: array<Wall>, start: int, end: int) returns (sum: Vec2)
    requires 0 <= start <= end <= |LOAD_WALLS| && end <= walls.Length
    modifies walls
    ensures forall v :: 0 <= v < walls.Length ==>
      walls[v] == if start <= v < end then LOAD_WALLS[v] else old(walls[v])
    ensures sum == MidpointSum(LOAD_WALLS, start, end)
  {
    sum := Vec2(0.0, 0.0);
    var w := start;
    while w < end
      invariant start <= w <= end
      invariant sum == MidpointSum(LOAD_WALLS, start, w)
      invariant forall v :: 0 <= v < walls.Length ==>
        walls[v] == if start <= v < w then LOAD_WALLS[v] else old(walls[v])
    {
      walls[w] := walls[w].(start := LOAD_WALLS[w].start, end := LOAD_WALLS[w].end, color := LOAD_WALLS[w].color);
      sum := Vec2(sum.x + (walls[w].start.x + walls[w].end.x) / 2.0,
                  sum.y + (walls[w].start.y + walls[w].end.y) / 2.0);
      w := w + 1;
    }
  }

  /** One pass of the sector loop of `dnf_game_init`: copy the sector's
      fields and walls, then store the mean of the wall midpoints. */
  method BuildSector(walls: array<Wall>, sectors: array<Sector>, s: int)
    requires 0 <= s < sectors.Length && s < |LOAD_SECTORS| && walls.Length == WALL_PER_SECTOR * SECTOR_N
    modifies walls, sectors
    ensures BuiltSector(sectors[s], s)
    ensures forall k :: 0 <= k < sectors.Length && k != s ==> sectors[k] == old(sectors[k])
    ensures forall v :: 0 <= v < walls.Length ==>
      walls[v] == if LOAD_SECTORS[s].wallStart <= v < LOAD_SECTORS[s].wallEnd then LOAD_WALLS[v] else old(walls[v])
  {
    LoadTablesWellFormed();
    var t := LOAD_SECTORS[s];
    sectors[s] := sectors[s].(wallStart := t.wallStart, wallEnd := t.wallEnd);
    sectors[s] := sectors[s].(baseLevel := t.baseLevel, height := t.height);
    var center := CopyWalls(walls, sectors[s].wallStart, sectors[s].wallEnd);
    center := Vec2(center.x / (sectors[s].wallEnd - sectors[s].wallStart) as real,
                   center.y / (sectors[s].wallEnd - sectors[s].wallStart) as real);
    assert center == Mean(MidpointSum(LOAD_WALLS, t.wallStart, t.wallEnd), t.wallEnd - t.wallStart);
    sectors[s] := sectors[s].(center := center);
  }

  /** The map-building part of `dnf_game_init`: allocate 25 walls and 5
      sectors, copy each sector's fields and walls from the tables and
      store its centre. */
  method BuildMap() returns (m: MapData)
    ensures fresh(m) && fresh(m.walls) && fresh(m.sectors)
    ensures m.Valid()
    ensures m.wallCount == WALL_PER_SECTOR && m.sectorCount == SECTOR_N
    ensures m.walls.Length == WALL_PER_SECTOR * SECTOR_N
    ensures forall s :: 0 <= s < SECTOR_N ==> BuiltSector(m.sectors[s], s)
    ensures forall s, w :: 0 <= s < SECTOR_N && LOAD_SECTORS[s].wallStart <= w < LOAD_SECTORS[s].wallEnd ==>
      m.walls[w] == LOAD_WALLS[w]
  {
    LoadTablesWellFormed();
    // the allocations are not initialised; the model fills the walls with
    // BLACK walls at the origin and the sectors with all-zero sectors
    var walls := new Wall[WALL_PER_SECTOR * SECTOR_N](_ => W(0.0, 0.0, 0.0, 0.0, BLACK));
    var sectors := new Sector[SECTOR_N](_ => LoadSector(0, 0, 0.0, 0.0));
    var s := 0;
    while s < SECTOR_N
      modifies walls, sectors
      invariant 0 <= s <= SECTOR_N
      invariant forall k :: 0 <= k < s ==> BuiltSector(sectors[k], k)
      invariant forall k, w :: 0 <= k < s && LOAD_SECTORS[k].wallStart <= w < LOAD_SECTORS[k].wallEnd ==>
        walls[w] == LOAD_WALLS[w]
    {
      BuildSector(walls, sectors, s);
      s := s + 1;
    }
    m := new MapData(WALL_PER_SECTOR, walls, sectors);
  }

  // ---------------------------------------------------------------------
  // The player
  // ---------------------------------------------------------------------

  /** The pose `dnf_game_init` gives the player. */
  const INITIAL_PLAYER: Player := Player(Vec3(120.0, 150.0, 30.0), Vec2(PI, 0.0))

  /** The nested conditional that restricts one coordinate. */
  function Clamp(v: real, lo: real, hi: real): (r: real)
    requires lo <= hi
    ensures lo <= r <= hi
    ensures lo <= v <= hi ==> r == v
    ensures v < lo ==> r == lo
    ensures v > hi ==> r == hi
  {
    if v < lo then lo else if v > hi then hi else v
  }

  /** The yaw after one update: the secondary attack turns right and wins
      over the primary attack, which turns left; a turn past a full turn is
      wrapped back by one. */
  function TurnedYaw(yaw: real, held: set<GameAction>): (r: real)
  {
    if Attack2 in held then
      var y := yaw - ROT_SPEED;
      if y < -TAU then y + TAU else y
    else if Attack1 in held then
      var y := yaw + ROT_SPEED;
      if y > TAU then y - TAU else y
    else yaw
  }

  /** The yaw never leaves `[-TAU, TAU]` once it is inside. */
  lemma TurnedYawStaysInRange(yaw: real, held: set<GameAction>)
    requires -TAU <= yaw <= TAU
    ensures -TAU <= TurnedYaw(yaw, held) <= TAU
  {
  }

  /** The turn is one step of `rot_speed` in the chosen direction, up to a
      whole turn. */
  lemma TurnedYawIsOneStep(yaw: real, held: set<GameAction>)
    ensures var d := if Attack2 in held then -ROT_SPEED else if Attack1 in held then ROT_SPEED else 0.0;
      var t := TurnedYaw(yaw, held);
      t == yaw + d || t == yaw + d + TAU || t == yaw + d - TAU
  {
  }

  /** The planar step for the held actions, from the `(dx, dy)` of the view
      direction: forward wins over backward, left over right. */
  function PlanarStep(held: set<GameAction>, dx: real, dy: real): (r: Vec2)
  {
    var along := if MoveForward in held then Vec2(dx, dy)
      else if MoveBackward in held then Vec2(-dx, -dy)
      else Vec2(0.0, 0.0);
    var side := if MoveLeft in held then Vec2(dy, -dx)
      else if MoveRight in held then Vec2(-dy, dx)
      else Vec2(0.0, 0.0);
    Vec2(along.x + side.x, along.y + side.y)
  }

  /** The vertical step: up wins over down. */
  function VerticalStep(held: set<GameAction>, dt: real): (r: real)
  {
    if MoveUp in held then SPEED * dt
    else if MoveDown in held then -(SPEED * dt)
    else 0.0
  }

  /** The position after one update, for a view step `(dx, dy)`: clamped
      first, then moved. */
  function MovedPosition(pos: Vec3, held: set<GameAction>, dx: real, dy: real, dt: real): (r: Vec3)
  {
    var x := Clamp(pos.x, MIN_X, MAX_X);
    var y := Clamp(pos.y, MIN_Y, MAX_Y);
    var step := PlanarStep(held, dx, dy);
    Vec3(x + step.x, y + step.y, pos.z + VerticalStep(held, dt))
  }

  /** `(dx, dy)`: one second's walk at `speed` along the yaw, scaled by `dt`. */
  function ViewStep(libm: Libm, yaw: real, dt: real): (r: Vec2)
  {
    Vec2(libm.sin(yaw) * SPEED * dt, libm.cos(yaw) * SPEED * dt)
  }

  /** The player after one `dnf_game_update`: the step is taken along the
      yaw as it is after the turn. */
  function UpdatedPlayer(p: Player, held: set<GameAction>, dt: real, libm: Libm): (r: Player)
  {
    var yaw := TurnedYaw(p.camDir.x, held);
    var d := ViewStep(libm, yaw, dt);
    Player(MovedPosition(p.pos, held, d.x, d.y, dt), p.camDir.(x := yaw))
  }

  /** The step is the sum of its forward/backward and its left/right parts. */
  lemma PlanarStepSplits(held: set<GameAction>, dx: real, dy: real)
    ensures var a := PlanarStep(held * {MoveForward, MoveBackward}, dx, dy);
      var b := PlanarStep(held * {MoveLeft, MoveRight}, dx, dy);
      PlanarStep(held, dx, dy) == Vec2(a.x + b.x, a.y + b.y)
  {
  }

  function Abs(r: real): (v: real) { if r < 0.0 then -r else r }

  /** Each held direction contributes one of `dx`, `dy` per axis. */
  lemma PlanarStepBound(held: set<GameAction>, dx: real, dy: real)
    ensures Abs(PlanarStep(held, dx, dy).x) <= Abs(dx) + Abs(dy)
    ensures Abs(PlanarStep(held, dx, dy).y) <= Abs(dx) + Abs(dy)
  {
  }

  /** The clamp runs before the move, so after an update the position is
      outside the clamp box by at most one step, `|dx| + |dy|` per axis. */
  lemma MoveStaysNearBox(pos: Vec3, held: set<GameAction>, dx: real, dy: real, dt: real)
    ensures var q := MovedPosition(pos, held, dx, dy, dt);
      && MIN_X - (Abs(dx) + Abs(dy)) <= q.x <= MAX_X + (Abs(dx) + Abs(dy))
      && MIN_Y - (Abs(dx) + Abs(dy)) <= q.y <= MAX_Y + (Abs(dx) + Abs(dy))
  {
    PlanarStepBound(held, dx, dy);
  }

  /** With a unit view vector `(sin, cos)` and `dx, dy` that vector scaled
      by `k`, walking straight (forward or backward, no strafe) covers
      exactly `k`, and walking diagonally covers `sqrt 2` times that. */
  lemma StepLength(held: set<GameAction>, sn: real, cs: real, k: real)
    requires sn * sn + cs * cs == 1.0
    ensures var step := PlanarStep(held, sn * k, cs * k);
      var len2 := step.x * step.x + step.y * step.y;
      var along := MoveForward in held || MoveBackward in held;
      var side := MoveLeft in held || MoveRight in held;
      && (along != side ==> len2 == k * k)
      && (along && side ==> len2 == 2.0 * k * k)
      && (!along && !side ==> len2 == 0.0)
  {
    var dx, dy := sn * k, cs * k;
    assert dx * dx + dy * dy == k * k * (sn * sn + cs * cs) == k * k;
  }

  /** game.c's module state: the player and the map of the game state, and
      the renderer module it draws through. */
  class GameState {
    var player: Player
    var mapData: MapData
    const renderer: GameRenderer

    ghost predicate Valid()
      reads this, renderer, renderer.fb, mapData, mapData.sectors
    {
      renderer.Valid() && mapData.Valid()
    }

    /** `dnf_game_init`: initialise the renderer (which cannot fail), place
        the player and build the map. */
    constructor Init(ctx: RendererContext)
      requires ctx.framebuffer.Valid()
      ensures Valid() && fresh(renderer)
      ensures renderer.fb == ctx.framebuffer
      ensures renderer.sw2 == ctx.framebuffer.width / 2 && renderer.sh2 == ctx.framebuffer.height / 2
      ensures player == INITIAL_PLAYER
      ensures mapData.wallCount == WALL_PER_SECTOR && mapData.sectorCount == SECTOR_N
      ensures mapData.walls.Length == WALL_PER_SECTOR * SECTOR_N
      ensures forall s :: 0 <= s < SECTOR_N ==> BuiltSector(mapData.sectors[s], s)
      ensures forall s, w :: 0 <= s < SECTOR_N && LOAD_SECTORS[s].wallStart <= w < LOAD_SECTORS[s].wallEnd ==>
        mapData.walls[w] == LOAD_WALLS[w]
    {
      var m := BuildMap();
      renderer := new GameRenderer.InitRenderer(ctx);
      player := Player(Vec3(120.0, 150.0, 30.0), Vec2(PI, 0.0));
      mapData := m;
    }

    /** `dnf_game_update`: clamp the position, turn, then move along the new
        view direction.  `held` is the set of actions whose `is_held`
        answers true. */
    method Update(held: set<GameAction>, dt: real, libm: Libm) returns (ok: bool)
      modifies this`player
      ensures ok
      ensures player == UpdatedPlayer(old(player), held, dt, libm)
    {
      ghost var start := player;
      ClampPosition();
      Turn(held);
      var dx := libm.sin(player.camDir.x) * SPEED * dt;
      var dy := libm.cos(player.camDir.x) * SPEED * dt;
      MoveAlong(held, dx, dy);
      Strafe(held, dx, dy);
      Climb(held, dt);
      PlanarStepSplits(held, dx, dy);
      ghost var yaw := TurnedYaw(start.camDir.x, held);
      assert player.camDir == start.camDir.(x := yaw);
      assert Vec2(dx, dy) == ViewStep(libm, yaw, dt);
      assert player == Player(MovedPosition(start.pos, held, dx, dy, dt), start.camDir.(x := yaw));
      ok := true;
    }

    /** The two clamping assignments at the top of `dnf_game_update`. */
    method ClampPosition()
      modifies this`player
      ensures player == old(player).(pos := old(player).pos.(
        x := Clamp(old(player).pos.x, MIN_X, MAX_X), y := Clamp(old(player).pos.y, MIN_Y, MAX_Y)))
    {
      player := player.(pos := player.pos.(x := if player.pos.x < MIN_X then MIN_X
        else if player.pos.x > MAX_X then MAX_X else player.pos.x));
      player := player.(pos := player.pos.(y := if player.pos.y < MIN_Y then MIN_Y
        else if player.pos.y > MAX_Y then MAX_Y else player.pos.y));
    }

    /** The rotation block: right on the secondary attack, else left on the
        primary attack, each wrapped by one full turn. */
    method Turn(held: set<GameAction>)
      modifies this`player
      ensures player == old(player).(camDir := old(player).camDir.(x := TurnedYaw(old(player).camDir.x, held)))
    {
      if Attack2 in held {
        player := player.(camDir := player.camDir.(x := player.camDir.x - ROT_SPEED));
        if player.camDir.x < -TAU {
          player := player.(camDir := player.camDir.(x := player.camDir.x + TAU));
        }
      } else if Attack1 in held {
        player := player.(camDir := player.camDir.(x := player.camDir.x + ROT_SPEED));
        if player.camDir.x > TAU {
          player := player.(camDir := player.camDir.(x := player.camDir.x - TAU));
        }
      }
    }

    /** Forward, else backward, along `(dx, dy)`. */
    method MoveAlong(held: set<GameAction>, dx: real, dy: real)
      modifies this`player
      ensures var d := PlanarStep(held * {MoveForward, MoveBackward}, dx, dy);
        player == old(player).(pos := old(player).pos.(x := old(player).pos.x + d.x, y := old(player).pos.y + d.y))
    {
      if MoveForward in held {
        player := player.(pos := player.pos.(x := player.pos.x + dx));
        player := player.(pos := player.pos.(y := player.pos.y + dy));
      } else if MoveBackward in held {
        player := player.(pos := player.pos.(x := player.pos.x - dx));
        player := player.(pos := player.pos.(y := player.pos.y - dy));
      }
    }

    /** Left, else right, across `(dx, dy)`. */
    method Strafe(held: set<GameAction>, dx: real, dy: real)
      modifies this`player
      ensures var d := PlanarStep(held * {MoveLeft, MoveRight}, dx, dy);
        player == old(player).(pos := old(player).pos.(x := old(player).pos.x + d.x, y := old(player).pos.y + d.y))
    {
      if MoveLeft in held {
        player := player.(pos := player.pos.(x := player.pos.x + dy));
        player := player.(pos := player.pos.(y := player.pos.y - dx));
      } else if MoveRight in held {
        player := player.(pos := player.pos.(x := player.pos.x - dy));
        player := player.(pos := player.pos.(y := player.pos.y + dx));
      }
    }

    /** Up, else down, by `speed * dt`. */
    method Climb(held: set<GameAction>, dt: real)
      modifies this`player
      ensures player == old(player).(pos := old(player).pos.(z := old(player).pos.z + VerticalStep(held, dt)))
    {
      if MoveUp in held {
        player := player.(pos := player.pos.(z := player.pos.z + SPEED * dt));
      } else if MoveDown in held {
        player := player.(pos := player.pos.(z := player.pos.z - SPEED * dt));
      }
    }

    /** `dnf_game_render`: hand the state to `draw_game` and return its answer. */
    method Render(libm: Libm, dt: real) returns (ok: bool)
      requires Valid()
      requires forall k :: 0 <= k < 17 ==>
        0 <= MarkerIndices(player, libm, renderer.fb.width)[k] < renderer.fb.pixels.Length
      modifies renderer.fb.pixels, mapData.sectors
      ensures ok && Valid()
      ensures DepthSorted(mapData.sectors[..])
      ensures multiset(mapData.sectors[..]) == multiset(WithDepths(old(mapData.sectors[..]), player.pos, libm.sqrt))
      ensures renderer.fb.pixels[..] == MarkerPixels(
        DrawSectors(seq(renderer.fb.pixels.Length, _ => BACKGROUND), mapData.sectors[..], mapData.walls[..],
          renderer.ViewOf(player, libm)),
        MarkerIndices(player, libm, renderer.fb.width))
    {
      ok := renderer.DrawGame(player, mapData, libm, dt);
    }
  }
}
