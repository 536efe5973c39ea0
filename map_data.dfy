/** The geometry records of game/include/map_data.h, the player record that
    game.c and game_render.c use, and the map store that owns the arrays. */
module MapData {
  import opened Numeric

  datatype Vec2 = Vec2(x: real, y: real)
  datatype Vec3 = Vec3(x: real, y: real, z: real)

  /** raylib's `Color`: four unsigned bytes, red, green, blue, alpha. */
  datatype Color = Color(r: byte, g: byte, b: byte, a: byte)

  // The raylib palette entries the map tables and the renderer use.
  const BLACK: Color := Color(0, 0, 0, 255)
  const RED: Color := Color(230, 41, 55, 255)
  const MAROON: Color := Color(190, 33, 55, 255)
  const YELLOW: Color := Color(253, 249, 0, 255)
  const GOLD: Color := Color(255, 203, 0, 255)
  const GREEN: Color := Color(0, 228, 48, 255)
  const LIME: Color := Color(0, 158, 47, 255)
  const PURPLE: Color := Color(200, 122, 255, 255)
  const VIOLET: Color := Color(135, 60, 190, 255)
  const BLUE: Color := Color(0, 121, 241, 255)
  const DARKBLUE: Color := Color(0, 82, 172, 255)

  /** `wall_t`: a segment with a flat colour. */
  datatype Wall = Wall(start: Vec2, end: Vec2, color: Color)

  /** `sector_t`: the walls `[wallStart, wallEnd)` of the map's wall array,
      the floor level and wall height, the centre computed at load time and
      the per-frame depth scratch value. */
  datatype Sector = Sector(
    wallStart: int, wallEnd: int,
    baseLevel: real, height: real,
    center: Vec2,
    zDepth: real)

  /** `player_t` as game.c and game_render.c use it: a position and a camera
      direction whose `x` component is the yaw in radians. */
  datatype Player = Player(pos: Vec3, camDir: Vec2)

  /** Every sector's wall range lies inside the wall array. */
  ghost predicate RangesInside(sectors: seq<Sector>, wallCount: int)
  {
    forall s :: 0 <= s < |sectors| ==>
      0 <= sectors[s].wallStart && sectors[s].wallEnd <= wallCount
  }

  /** `map_data_t`: counts and the two heap arrays.  `wallCount` is whatever
      the builder stored; only `sectorCount` is used to walk the sectors. */
  class MapData {
    const wallCount: int
    const sectorCount: int
    const walls: array<Wall>
    const sectors: array<Sector>

    ghost predicate Valid()
      reads sectors
    {
      sectorCount == sectors.Length && RangesInside(sectors[..], walls.Length)
    }

    constructor (wallCount: int, walls: array<Wall>, sectors: array<Sector>)
      ensures this.wallCount == wallCount && this.sectorCount == sectors.Length
      ensures this.walls == walls && this.sectors == sectors
    {
      this.wallCount := wallCount;
      this.sectorCount := sectors.Length;
      this.walls := walls;
      this.sectors := sectors;
    }
  }
}
