/** game/src/game_render.c: the software wall rasteriser.  Each frame clears
    the framebuffer, gives every sector its distance from the player, sorts
    the sectors farthest first and draws every wall of every sector as
    vertical spans of flat colour. */
module GameRender {
  import opened Numeric
  import opened MapData
  import opened Renderer

  /** `scale`: the focal factor of the perspective divide. */
  const SCALE: real := 200.0
  /** `near_z`: camera-space depth below which geometry is clipped. */
  const NEAR_Z: real := 0.1
  /** `memset(pixels, 0x50, ...)` sets every byte of every pixel to 0x50. */
  const BACKGROUND: Color := Color(0x50, 0x50, 0x50, 0x50)

  /** Everything `draw_wall` reads besides the wall and the sector's levels:
      the framebuffer size, `SW2`/`SH2`, the player position and the
      precomputed cosine and sine of the yaw. */
  datatype View = View(width: int, height: int, sw2: int, sh2: int, pos: Vec3, viewCos: real, viewSin: real)

  // ---------------------------------------------------------------------
  // Sector ordering
  // ---------------------------------------------------------------------

  function SquaredDistance(x1: real, y1: real, x2: real, y2: real): (r: real)
  {
    (x2 - x1) * (x2 - x1) + (y2 - y1) * (y2 - y1)
  }

  lemma SquaredDistanceNonNegative(x1: real, y1: real, x2: real, y2: real)
    ensures SquaredDistance(x1, y1, x2, y2) >= 0.0
  {
    var dx, dy := x2 - x1, y2 - y1;
    assert dx * dx >= 0.0 by {
      if dx < 0.0 { assert dx * dx == (-dx) * (-dx); }
    }
    assert dy * dy >= 0.0 by {
      if dy < 0.0 { assert dy * dy == (-dy) * (-dy); }
    }
  }

  /** `distance`: `sqrtf` of the squared planar distance. */
  function Distance(sqrt: real -> real, x1: real, y1: real, x2: real, y2: real): (d: real)
    // the distance is the same measured from either end
    ensures d == sqrt(SquaredDistance(x2, y2, x1, y1))
  {
    sqrt(SquaredDistance(x1, y1, x2, y2))
  }

  /** With a strictly increasing square root, ordering sectors by `distance`
      is ordering them by squared distance. */
  lemma DistanceOrderIsSquaredDistanceOrder(sqrt: real -> real, p: Vec2, c1: Vec2, c2: Vec2)
    requires forall a: real, b: real :: 0.0 <= a < b ==> sqrt(a) < sqrt(b)
    ensures Distance(sqrt, p.x, p.y, c1.x, c1.y) > Distance(sqrt, p.x, p.y, c2.x, c2.y)
       <==> SquaredDistance(p.x, p.y, c1.x, c1.y) > SquaredDistance(p.x, p.y, c2.x, c2.y)
  {
    var d1 := SquaredDistance(p.x, p.y, c1.x, c1.y);
    var d2 := SquaredDistance(p.x, p.y, c2.x, c2.y);
    SquaredDistanceNonNegative(p.x, p.y, c1.x, c1.y);
    SquaredDistanceNonNegative(p.x, p.y, c2.x, c2.y);
    if d1 > d2 {
      assert sqrt(d2) < sqrt(d1);
    } else if d1 < d2 {
      assert sqrt(d1) < sqrt(d2);
    }
  }

  /** `compare_sectors`: the `qsort` comparator that puts deeper sectors first. */
  function CompareSectors(s1: Sector, s2: Sector): (r: int)
    ensures r == -1 || r == 0 || r == 1
    ensures r == -1 <==> s1.zDepth > s2.zDepth
    ensures r == 1 <==> s1.zDepth < s2.zDepth
  {
    if s1.zDepth > s2.zDepth then -1
    else if s1.zDepth < s2.zDepth then 1
    else 0
  }

  /** The comparator is a consistent total preorder, which is what `qsort`
      demands of it: antisymmetric and transitive. */
  lemma CompareSectorsIsConsistent(a: Sector, b: Sector, c: Sector)
    ensures CompareSectors(a, b) == -CompareSectors(b, a)
    ensures CompareSectors(a, b) <= 0 && CompareSectors(b, c) <= 0 ==> CompareSectors(a, c) <= 0
    ensures CompareSectors(a, b) < 0 && CompareSectors(b, c) < 0 ==> CompareSectors(a, c) < 0
  {
  }

  /** Farthest first: depth never increases along the sequence. */
  ghost predicate DepthSorted(s: seq<Sector>)
  {
    forall k, l :: 0 <= k < l < |s| ==> s[k].zDepth >= s[l].zDepth
  }

  /** The sectors with their `z_depth` set to the distance from `pos`. */
  function WithDepths(s: seq<Sector>, pos: Vec3, sqrt: real -> real): (r: seq<Sector>)
    ensures |r| == |s|
    ensures forall k :: 0 <= k < |s| ==>
      r[k].zDepth == Distance(sqrt, pos.x, pos.y, s[k].center.x, s[k].center.y)
    ensures forall k :: 0 <= k < |s| ==> r[k] == s[k].(zDepth := r[k].zDepth)
  {
    seq(|s|, k requires 0 <= k < |s| =>
      s[k].(zDepth := Distance(sqrt, pos.x, pos.y, s[k].center.x, s[k].center.y)))
  }

  /** Any reordering of sectors whose depths were all set from `pos` still
      carries, in every slot, its own distance from `pos`, and still keeps
      its walls inside the wall array. */
  lemma ReorderedDepths(original: seq<Sector>, sorted: seq<Sector>, pos: Vec3, sqrt: real -> real, wallCount: int)
    requires multiset(sorted) == multiset(WithDepths(original, pos, sqrt))
    requires RangesInside(original, wallCount)
    ensures forall k :: 0 <= k < |sorted| ==>
      sorted[k].zDepth == Distance(sqrt, pos.x, pos.y, sorted[k].center.x, sorted[k].center.y)
    ensures RangesInside(sorted, wallCount)
  {
    var withDepths := WithDepths(original, pos, sqrt);
    forall k | 0 <= k < |sorted|
      ensures sorted[k].zDepth == Distance(sqrt, pos.x, pos.y, sorted[k].center.x, sorted[k].center.y)
      ensures 0 <= sorted[k].wallStart && sorted[k].wallEnd <= wallCount
    {
      assert sorted[k] in multiset(sorted);
      assert sorted[k] in withDepths;
      var j :| 0 <= j < |withDepths| && withDepths[j] == sorted[k];
      assert withDepths[j] == original[j].(zDepth := withDepths[j].zDepth);
    }
  }

  /** The depth loop of `draw_3D`: every sector's `z_depth` becomes its
      distance from `pos`. */
  method AssignDepths(sectors: array<Sector>, count: int, pos: Vec3, sqrt: real -> real)
    requires count == sectors.Length
    modifies sectors
    ensures sectors[..] == WithDepths(old(sectors[..]), pos, sqrt)
  {
    ghost var depths := WithDepths(sectors[..], pos, sqrt);
    var s := 0;
    while s < count
      invariant 0 <= s <= count
      invariant forall k :: 0 <= k < s ==> sectors[k] == depths[k]
      invariant forall k :: s <= k < count ==> sectors[k] == old(sectors[k])
    {
      sectors[s] := sectors[s].(zDepth := Distance(sqrt, pos.x, pos.y, sectors[s].center.x, sectors[s].center.y));
      s := s + 1;
    }
  }

  /** Exchange `a[j - 1]` and `a[j]`. */
  method SwapAdjacent(a: array<Sector>, j: int)
    requires 0 < j < a.Length
    modifies a
    ensures a[j - 1] == old(a[j]) && a[j] == old(a[j - 1])
    ensures forall k :: 0 <= k < a.Length && k != j - 1 && k != j ==> a[k] == old(a[k])
    ensures multiset(a[..]) == multiset(old(a[..]))
  {
    a[j - 1], a[j] := a[j], a[j - 1];
  }

  /** The `qsort` call: sort the sectors in place, farthest first. */
  method SortByDepth(a: array<Sector>)
    modifies a
    ensures DepthSorted(a[..])
    ensures multiset(a[..]) == multiset(old(a[..]))
  {
    var i := 0;
    while i < a.Length
      invariant 0 <= i <= a.Length
      invariant forall k, l :: 0 <= k < l < i ==> a[k].zDepth >= a[l].zDepth
      invariant multiset(a[..]) == multiset(old(a[..]))
    {
      var j := i;
      while 0 < j && CompareSectors(a[j - 1], a[j]) > 0
        invariant 0 <= j <= i
        invariant multiset(a[..]) == multiset(old(a[..]))
        invariant forall k, l :: 0 <= k < l <= i && k != j && l != j ==> a[k].zDepth >= a[l].zDepth
        invariant forall l :: j < l <= i ==> a[j].zDepth > a[l].zDepth
      {
        SwapAdjacent(a, j);
        j := j - 1;
      }
      i := i + 1;
    }
  }

  // ---------------------------------------------------------------------
  // Projection pipeline (pure arithmetic of draw_wall)
  // ---------------------------------------------------------------------

  /** A wall in camera space: `tx` to the right, `ty` the depth. */
  datatype CameraSegment = CameraSegment(tx1: real, ty1: real, tx2: real, ty2: real)

  /** Translate a world point by the player position, then rotate it by the
      yaw given as its cosine and sine. */
  function ToCamera(p: Vec2, pos: Vec3, c: real, s: real): (q: Vec2)
    // the player stands at the camera's origin
    ensures p.x == pos.x && p.y == pos.y ==> q == Vec2(0.0, 0.0)
    // with no rotation the transform is the translation by the player
    ensures c == 1.0 && s == 0.0 ==> q == Vec2(p.x - pos.x, p.y - pos.y)
  {
    var x := p.x - pos.x;
    var y := p.y - pos.y;
    Vec2(x * c - y * s, y * c + x * s)
  }

  function ToCameraSpace(wall: Wall, view: View): (r: CameraSegment)
  {
    var a := ToCamera(wall.start, view.pos, view.viewCos, view.viewSin);
    var b := ToCamera(wall.end, view.pos, view.viewCos, view.viewSin);
    CameraSegment(a.x, a.y, b.x, b.y)
  }

  /** When the cosine and sine belong to one angle, the camera transform is a
      rigid motion: the distance to the player is kept. */
  lemma RotationKeepsDistance(p: Vec2, pos: Vec3, c: real, s: real)
    requires c * c + s * s == 1.0
    ensures var q := ToCamera(p, pos, c, s);
      q.x * q.x + q.y * q.y == (p.x - pos.x) * (p.x - pos.x) + (p.y - pos.y) * (p.y - pos.y)
  {
    var x, y := p.x - pos.x, p.y - pos.y;
    calc {
      (x * c - y * s) * (x * c - y * s) + (y * c + x * s) * (y * c + x * s);
      x * x * (c * c + s * s) + y * y * (c * c + s * s);
      x * x + y * y;
    }
  }

  /** The camera looks where the player walks: a point `d` ahead along
      `(sin yaw, cos yaw)` (the direction `dnf_game_update` moves forward in)
      lands on the depth axis at depth `d`. */
  lemma ViewDirectionIsDepthAxis(pos: Vec3, c: real, s: real, d: real)
    requires c * c + s * s == 1.0
    ensures ToCamera(Vec2(pos.x + d * s, pos.y + d * c), pos, c, s) == Vec2(0.0, d)
  {
    var q := ToCamera(Vec2(pos.x + d * s, pos.y + d * c), pos, c, s);
    assert q.x == d * s * c - d * c * s == 0.0;
    assert q.y == d * (c * c + s * s);
  }

  /** Linear interpolation from `a` at `t = 0` to `b` at `t = 1`. */
  function Lerp(a: real, b: real, t: real): (r: real)
  {
    a + t * (b - a)
  }

  /** The clipping coefficient `t = (near_z - ty1) / (ty2 - ty1)`. */
  function ClipFactor(c: CameraSegment): (r: real)
    requires c.ty1 != c.ty2
  {
    (NEAR_Z - c.ty1) / (c.ty2 - c.ty1)
  }

  /** Near clipping: discard a wall entirely in front of the near plane, move
      an endpoint behind it onto the plane, keep a wall entirely beyond it. */
  function ClipNear(c: CameraSegment): (r: Option<CameraSegment>)
    ensures r.None? <==> c.ty1 < NEAR_Z && c.ty2 < NEAR_Z
    // both depths are then safe to divide by
    ensures r.Some? ==> r.value.ty1 >= NEAR_Z && r.value.ty2 >= NEAR_Z
    ensures c.ty1 >= NEAR_Z && c.ty2 >= NEAR_Z ==> r == Some(c)
    ensures c.ty1 < NEAR_Z <= c.ty2 ==>
      r == Some(c.(tx1 := Lerp(c.tx1, c.tx2, ClipFactor(c)), ty1 := NEAR_Z))
    ensures c.ty2 < NEAR_Z <= c.ty1 ==>
      r == Some(c.(tx2 := Lerp(c.tx1, c.tx2, ClipFactor(c)), ty2 := NEAR_Z))
  {
    if c.ty1 < NEAR_Z && c.ty2 < NEAR_Z then None
    else if c.ty1 < NEAR_Z || c.ty2 < NEAR_Z then
      var t := ClipFactor(c);
      if c.ty1 < NEAR_Z then Some(c.(tx1 := Lerp(c.tx1, c.tx2, t), ty1 := NEAR_Z))
      else Some(c.(tx2 := Lerp(c.tx1, c.tx2, t), ty2 := NEAR_Z))
    else Some(c)
  }

  /** Whichever endpoint is clipped, the same `t` places it on the original
      segment, between the endpoints, exactly at depth `near_z`. */
  lemma ClipPointOnSegment(c: CameraSegment)
    requires (c.ty1 < NEAR_Z) != (c.ty2 < NEAR_Z)
    ensures 0.0 <= ClipFactor(c) <= 1.0
    ensures Lerp(c.ty1, c.ty2, ClipFactor(c)) == NEAR_Z
  {
    var t := ClipFactor(c);
    LerpReaches(c.ty1, c.ty2, NEAR_Z);
    if c.ty1 < NEAR_Z {
      QuotientInUnit(NEAR_Z - c.ty1, c.ty2 - c.ty1);
    } else {
      assert t == (c.ty1 - NEAR_Z) / (c.ty1 - c.ty2);
      QuotientInUnit(c.ty1 - NEAR_Z, c.ty1 - c.ty2);
    }
  }

  /** Interpolating by `(v - a) / (b - a)` reaches `v`. */
  lemma LerpReaches(a: real, b: real, v: real)
    requires a != b
    ensures Lerp(a, b, (v - a) / (b - a)) == v
  {
    var t := (v - a) / (b - a);
    assert t * (b - a) == v - a;
  }

  lemma QuotientInUnit(a: real, b: real)
    requires 0.0 <= a <= b && b > 0.0
    ensures 0.0 <= a / b <= 1.0
  {
    assert a / b * b == a;
  }

  /** Screen column of a camera-space point: `SW2 - (int32_t)(tx * scale / ty)`. */
  function ScreenColumn(sw2: int, tx: real, ty: real): (x: int)
    requires ty > 0.0
    // a point straight ahead lands on the centre column, one to the right
    // of the depth axis never right of it, one to the left never left of it
    ensures tx == 0.0 ==> x == sw2
    ensures tx > 0.0 ==> x <= sw2
    ensures tx < 0.0 ==> x >= sw2
  {
    sw2 - Trunc(tx * SCALE / ty)
  }

  /** The column is the exact perspective projection up to the truncating cast. */
  lemma ScreenColumnWithinOne(sw2: int, tx: real, ty: real)
    requires ty > 0.0
    ensures var exact := sw2 as real - tx * SCALE / ty;
      exact - 1.0 < ScreenColumn(sw2, tx, ty) as real < exact + 1.0
  {
  }

  /** Screen row of a height `z` above the eye at depth `ty`. */
  function ScreenRow(sh2: int, z: real, ty: real): (y: real)
    requires ty > 0.0
    // eye level lands on the centre row, a point above the eye above it and
    // one below the eye below it
    ensures z == 0.0 ==> y == sh2 as real
    ensures z > 0.0 ==> y < sh2 as real
    ensures z < 0.0 ==> y > sh2 as real
  {
    sh2 as real - z * SCALE / ty
  }

  /** What survives culling: the start and end columns and the bottom and top
      rows at both ends. */
  datatype WallPlan = WallPlan(sxB: int, exB: int, syB: real, syT: real, eyB: real, eyT: real)

  /** The arithmetic of `draw_wall` up to the column loop: `None` for a wall
      entirely behind the near plane or seen from the back. */
  function ProjectWall(wall: Wall, view: View, baseLevel: real, height: real): (r: Option<WallPlan>)
    ensures var c := ToCameraSpace(wall, view);
      c.ty1 < NEAR_Z && c.ty2 < NEAR_Z ==> r.None?
    // the later `dx <= 0` test can never fire
    ensures r.Some? ==> r.value.sxB < r.value.exB
    ensures var c := ClipNear(ToCameraSpace(wall, view));
      c.Some? ==>
        (r.None? <==> ScreenColumn(view.sw2, c.value.tx1, c.value.ty1) >= ScreenColumn(view.sw2, c.value.tx2, c.value.ty2))
  {
    match ClipNear(ToCameraSpace(wall, view))
    case None => None
    case Some(c) =>
      var sx := ScreenColumn(view.sw2, c.tx1, c.ty1);
      var ex := ScreenColumn(view.sw2, c.tx2, c.ty2);
      if sx >= ex then None
      else
        var szB := baseLevel - view.pos.z;
        var szT := szB + height;
        Some(WallPlan(sx, ex,
          ScreenRow(view.sh2, szB, c.ty1), ScreenRow(view.sh2, szT, c.ty1),
          ScreenRow(view.sh2, szB, c.ty2), ScreenRow(view.sh2, szT, c.ty2)))
  }

  /** Columns `[x_min, x_max)` after clamping off the first and last column. */
  function ColumnRange(p: WallPlan, width: int): (r: (int, int))
    // the projected columns cut to the frame without its first and last
    // column: each end is the projected one unless that lies outside
    ensures 1 <= r.0 && p.sxB <= r.0 && (r.0 == 1 || r.0 == p.sxB)
    ensures r.1 <= width - 1 && r.1 <= p.exB && (r.1 == width - 1 || r.1 == p.exB)
  {
    (Max(1, p.sxB), Min(width - 1, p.exB))
  }

  /** Rows `[y_t, y_b]` of column `x`: the ends interpolated linearly between
      the wall's two ends, cast to int, then clamped to the frame. */
  function RowSpan(p: WallPlan, height: int, x: int): (r: (int, int))
    requires p.sxB < p.exB
    // the span never reaches the first row nor past the last one
    ensures 1 <= r.0 && r.1 <= height - 1
  {
    var factor := (x - p.sxB) as real / (p.exB - p.sxB) as real;
    var yB := Trunc(Lerp(p.syB, p.eyB, factor));
    var yT := Trunc(Lerp(p.syT, p.eyT, factor));
    (if yT < 1 then 1 else yT, if yB > height - 1 then height - 1 else yB)
  }

  /** Pixel `(x, y)` lies in the wall's spans.  Every such pixel is inside
      the frame and off its first row and its first and last columns. */
  predicate Covers(p: WallPlan, width: int, height: int, x: int, y: int)
    requires p.sxB < p.exB
    ensures Covers(p, width, height, x, y) ==> 1 <= x <= width - 2 && 1 <= y <= height - 1
  {
    var (xMin, xMax) := ColumnRange(p, width);
    var (yT, yB) := RowSpan(p, height, x);
    xMin <= x < xMax && yT <= y <= yB
  }

  /** Pixel `i` of the row-major array is one `draw_wall` paints. */
  predicate PixelCovered(plan: Option<WallPlan>, view: View, i: int)
  {
    && plan.Some? && plan.value.sxB < plan.value.exB && view.width > 0
    && Covers(plan.value, view.width, view.height, i % view.width, i / view.width)
  }

  /** The pixels after `draw_wall`: the covered ones take the wall colour. */
  function WallPixels(before: seq<Color>, view: View, plan: Option<WallPlan>, color: Color): (after: seq<Color>)
    ensures |after| == |before|
    // only the wall colour is ever written
    ensures forall i :: 0 <= i < |before| ==> after[i] == before[i] || after[i] == color
    // a culled wall writes nothing
    ensures plan.None? ==> after == before
  {
    seq(|before|, i requires 0 <= i < |before| =>
      if PixelCovered(plan, view, i) then color else before[i])
  }

  /** Euclidean division is unique: a quotient and a remainder in range
      are the ones `/` and `%` return. */
  lemma DivModUnique(i: int, q: int, r: int, w: int)
    requires w > 0 && 0 <= r < w && i == q * w + r
    ensures i / w == q && i % w == r
  {
    var q', r' := i / w, i % w;
    assert (q - q') * w == r' - r;
    assert q - q' >= 1 ==> (q - q' - 1) * w >= 0;
    assert q' - q >= 1 ==> (q' - q - 1) * w >= 0;
  }

  /** Row `y`, column `x` sits at `y * width + x`, and can be read back. */
  lemma PixelIndex(x: int, y: int, width: int, height: int)
    requires 0 <= x < width && 0 <= y < height
    ensures 0 <= y * width + x < width * height
    ensures (y * width + x) % width == x && (y * width + x) / width == y
  {
    MulMonotone(y + 1, height, width);
    assert y * width + width == (y + 1) * width;
    DivModUnique(y * width + x, y, x, width);
  }

  lemma MulMonotone(a: int, b: int, w: int)
    requires a <= b && w >= 0
    ensures a * w <= b * w
  {
    assert b * w - a * w == (b - a) * w;
  }

  /** Pixels on the first row or on the first or last column. */
  predicate OnBorder(view: View, i: int)
  {
    view.width > 0 && (i / view.width == 0 || i % view.width == 0 || i % view.width == view.width - 1)
  }

  /** A wall never reaches the first row or the first or last column. */
  lemma WallMissesBorder(before: seq<Color>, view: View, plan: Option<WallPlan>, color: Color, i: int)
    requires 0 <= i < |before| && OnBorder(view, i)
    ensures WallPixels(before, view, plan, color)[i] == before[i]
  {
  }

  // ---------------------------------------------------------------------
  // Whole frame, as functions of the pixel array
  // ---------------------------------------------------------------------

  /** The walls `start .. end-1` of one sector drawn in increasing index. */
  function DrawWalls(p: seq<Color>, walls: seq<Wall>, start: int, end: int, baseLevel: real, height: real, view: View): (r: seq<Color>)
    requires 0 <= start && (end <= start || end <= |walls|)
    decreases end - start
    ensures |r| == |p|
  {
    if end <= start then p
    else
      var q := DrawWalls(p, walls, start, end - 1, baseLevel, height, view);
      WallPixels(q, view, ProjectWall(walls[end - 1], view, baseLevel, height), walls[end - 1].color)
  }

  /** The sectors drawn in sequence order, each wall with its sector's levels. */
  function DrawSectors(p: seq<Color>, secs: seq<Sector>, walls: seq<Wall>, view: View): (r: seq<Color>)
    requires RangesInside(secs, |walls|)
    ensures |r| == |p|
  {
    if secs == [] then p
    else
      var s := secs[|secs| - 1];
      var q := DrawSectors(p, secs[..|secs| - 1], walls, view);
      DrawWalls(q, walls, s.wallStart, s.wallEnd, s.baseLevel, s.height, view)
  }

  /** The colours of the walls in the sectors' ranges. */
  ghost function SectorColors(secs: seq<Sector>, walls: seq<Wall>): (r: set<Color>)
  {
    set s, w | 0 <= s < |secs| && secs[s].wallStart <= w < secs[s].wallEnd && 0 <= w < |walls| :: walls[w].color
  }

  lemma {:induction false} DrawWallsColors(p: seq<Color>, walls: seq<Wall>, start: int, end: int, baseLevel: real, height: real, view: View, i: int)
    requires 0 <= start && end <= |walls| && 0 <= i < |p|
    decreases end - start
    ensures var r := DrawWalls(p, walls, start, end, baseLevel, height, view);
      r[i] == p[i] || exists w :: start <= w < end && r[i] == walls[w].color
  {
    if start < end {
      DrawWallsColors(p, walls, start, end - 1, baseLevel, height, view, i);
      var q := DrawWalls(p, walls, start, end - 1, baseLevel, height, view);
      var r := DrawWalls(p, walls, start, end, baseLevel, height, view);
      if r[i] != q[i] {
        assert r[i] == walls[end - 1].color;
      }
    }
  }

  /** Every pixel of a frame is either what it was before or the colour of a
      wall of one of the drawn sectors. */
  lemma {:induction false} DrawnPixelsAreWallColors(p: seq<Color>, secs: seq<Sector>, walls: seq<Wall>, view: View, i: int)
    requires RangesInside(secs, |walls|) && 0 <= i < |p|
    ensures var r := DrawSectors(p, secs, walls, view);
      r[i] == p[i] || r[i] in SectorColors(secs, walls)
  {
    if secs != [] {
      var n := |secs| - 1;
      var s := secs[n];
      var init := secs[..n];
      assert RangesInside(init, |walls|);
      DrawnPixelsAreWallColors(p, init, walls, view, i);
      var q := DrawSectors(p, init, walls, view);
      DrawWallsColors(q, walls, s.wallStart, s.wallEnd, s.baseLevel, s.height, view, i);
      var r := DrawSectors(p, secs, walls, view);
      if r[i] != q[i] {
        var w :| s.wallStart <= w < s.wallEnd && r[i] == walls[w].color;
        assert secs[n] == s;
        assert r[i] in SectorColors(secs, walls);
      } else if q[i] != p[i] {
        var s', w :| 0 <= s' < |init| && init[s'].wallStart <= w < init[s'].wallEnd && 0 <= w < |walls| && q[i] == walls[w].color;
        assert secs[s'] == init[s'];
      }
    }
  }

  lemma {:induction false} DrawWallsMissesBorder(p: seq<Color>, walls: seq<Wall>, start: int, end: int, baseLevel: real, height: real, view: View, i: int)
    requires 0 <= start && end <= |walls| && 0 <= i < |p| && OnBorder(view, i)
    decreases end - start
    ensures DrawWalls(p, walls, start, end, baseLevel, height, view)[i] == p[i]
  {
    if start < end {
      DrawWallsMissesBorder(p, walls, start, end - 1, baseLevel, height, view, i);
      var q := DrawWalls(p, walls, start, end - 1, baseLevel, height, view);
      WallMissesBorder(q, view, ProjectWall(walls[end - 1], view, baseLevel, height), walls[end - 1].color, i);
    }
  }

  /** The first row and the first and last columns keep the
      colour it had before the sectors were drawn. */
  lemma {:induction false} DrawSectorsMissesBorder(p: seq<Color>, secs: seq<Sector>, walls: seq<Wall>, view: View, i: int)
    requires RangesInside(secs, |walls|) && 0 <= i < |p| && OnBorder(view, i)
    ensures DrawSectors(p, secs, walls, view)[i] == p[i]
  {
    if secs != [] {
      var s := secs[|secs| - 1];
      var init := secs[..|secs| - 1];
      DrawSectorsMissesBorder(p, init, walls, view, i);
      DrawWallsMissesBorder(DrawSectors(p, init, walls, view), walls, s.wallStart, s.wallEnd, s.baseLevel, s.height, view, i);
    }
  }

  /** The pixel indices `draw_player_top` writes: the 4x4 block around the
      player, row by row, then the direction pixel 20 units ahead. */
  function MarkerIndices(player: Player, libm: Libm, width: int): (r: seq<int>)
    ensures |r| == 17
    // the first sixteen are the 4x4 block from two pixels up and left of the
    // player's truncated position, row by row
    ensures forall k :: 0 <= k < 16 ==>
      r[k] - (Trunc(player.pos.y) * width + Trunc(player.pos.x)) == (k / 4 - 2) * width + (k % 4 - 2)
    // the last is the pixel twenty units ahead along the yaw
    ensures r[16] == (Trunc(player.pos.y) + Trunc(20.0 * libm.cos(player.camDir.x))) * width
      + Trunc(player.pos.x) + Trunc(20.0 * libm.sin(player.camDir.x))
  {
    var px := Trunc(player.pos.x);
    var py := Trunc(player.pos.y);
    var dirX := px + Trunc(20.0 * libm.sin(player.camDir.x));
    var dirY := py + Trunc(20.0 * libm.cos(player.camDir.x));
    seq(16, k requires 0 <= k < 16 => (k / 4 - 2 + py) * width + (k % 4 - 2 + px)) + [dirY * width + dirX]
  }

  function MarkerPixels(before: seq<Color>, indices: seq<int>): (after: seq<Color>)
    ensures |after| == |before|
    ensures forall i :: 0 <= i < |before| ==> (after[i] == RED || after[i] == before[i])
  {
    seq(|before|, i requires 0 <= i < |before| => if i in indices then RED else before[i])
  }

  /** Marking one more index extends the marked prefix by one. */
  lemma MarkStep(before: seq<Color>, idx: seq<int>, n: int)
    requires 0 <= n < |idx| && 0 <= idx[n] < |before|
    ensures MarkerPixels(before, idx[..n])[idx[n] := RED] == MarkerPixels(before, idx[..n + 1])
  {
    assert idx[..n + 1] == idx[..n] + [idx[n]];
  }

  /** Pixel `i` is painted once the column loop of `draw_wall` has reached
      column `x` and its row loop row `y`: covered, and in an earlier column
      or higher up in the current one. */
  predicate PaintedBefore(p: WallPlan, view: View, i: int, x: int, y: int)
    requires p.sxB < p.exB
  {
    && view.width > 0
    && Covers(p, view.width, view.height, i % view.width, i / view.width)
    && (i % view.width < x || (i % view.width == x && i / view.width < y))
  }

  /** The pixel array at that point of `draw_wall`. */
  function Painted(before: seq<Color>, p: WallPlan, view: View, color: Color, x: int, y: int): (r: seq<Color>)
    requires p.sxB < p.exB
    ensures |r| == |before|
  {
    seq(|before|, i requires 0 <= i < |before| => if PaintedBefore(p, view, i, x, y) then color else before[i])
  }

  lemma PaintedNothingYet(before: seq<Color>, p: WallPlan, view: View, color: Color)
    requires p.sxB < p.exB
    ensures Painted(before, p, view, color, ColumnRange(p, view.width).0, 0) == before
  {
  }

  lemma PaintedColumnStart(before: seq<Color>, p: WallPlan, view: View, color: Color, x: int)
    requires p.sxB < p.exB
    ensures Painted(before, p, view, color, x, 0) == Painted(before, p, view, color, x, RowSpan(p, view.height, x).0)
  {
  }

  /** Painting pixel `(x, y)` of the span moves the row loop on by one. */
  lemma PaintedRowStep(before: seq<Color>, p: WallPlan, view: View, color: Color, x: int, y: int)
    requires p.sxB < p.exB && |before| == view.width * view.height
    requires Covers(p, view.width, view.height, x, y)
    ensures 0 <= y * view.width + x < |before|
    ensures Painted(before, p, view, color, x, y)[y * view.width + x := color] == Painted(before, p, view, color, x, y + 1)
  {
    var w := view.width;
    PixelIndex(x, y, w, view.height);
    forall i | 0 <= i < |before|
      ensures PaintedBefore(p, view, i, x, y + 1) <==> PaintedBefore(p, view, i, x, y) || i == y * w + x
    {
      if i % w == x && i / w == y {
        SameCell(i, y * w + x, w);
      }
    }
  }

  /** Two indices in the same row and column are the same index. */
  lemma SameCell(i: int, j: int, w: int)
    requires w > 0 && i % w == j % w && i / w == j / w
    ensures i == j
  {
    assert i == (i / w) * w + i % w;
    assert j == (j / w) * w + j % w;
  }

  lemma PaintedColumnEnd(before: seq<Color>, p: WallPlan, view: View, color: Color, x: int, y: int)
    requires p.sxB < p.exB && y > RowSpan(p, view.height, x).1
    ensures Painted(before, p, view, color, x, y) == Painted(before, p, view, color, x + 1, 0)
  {
  }

  lemma PaintedAll(before: seq<Color>, p: WallPlan, view: View, color: Color, x: int)
    requires p.sxB < p.exB && x >= ColumnRange(p, view.width).1
    ensures Painted(before, p, view, color, x, 0) == WallPixels(before, view, Some(p), color)
  {
  }

  // ---------------------------------------------------------------------
  // The renderer's state and its imperative operations
  // ---------------------------------------------------------------------

  /** The module-level state of game_render.c: the framebuffer it draws into and the
      half width and half height cached by `init_renderer`. */
  class GameRenderer {
    const fb: Framebuffer
    var sw2: int
    var sh2: int

    ghost predicate Valid()
      reads fb
    {
      fb.Valid()
    }

    /** `init_renderer`: cache the framebuffer and `SW2`, `SH2` (the widths
        are never negative, so C's truncating `/` agrees with Dafny's). */
    constructor InitRenderer(ctx: RendererContext)
      requires ctx.framebuffer.Valid()
      ensures fb == ctx.framebuffer && Valid()
      ensures sw2 == fb.width / 2 && sh2 == fb.height / 2
      ensures 0 <= sw2 <= fb.width && 0 <= sh2 <= fb.height
    {
      fb := ctx.framebuffer;
      sw2 := ctx.framebuffer.width / 2;
      sh2 := ctx.framebuffer.height / 2;
    }

    /** The view a frame is drawn from, with the yaw's cosine and sine. */
    function ViewOf(player: Player, libm: Libm): (r: View)
      reads this, fb
    {
      View(fb.width, fb.height, sw2, sh2, player.pos, libm.cos(player.camDir.x), libm.sin(player.camDir.x))
    }

    /** `clear_framebuffer`: every pixel of the `width * height` array takes
        the background bytes. */
    method ClearFramebuffer()
      requires Valid()
      modifies fb.pixels
      ensures fb.pixels[..] == seq(fb.pixels.Length, _ => BACKGROUND)
    {
      forall i | 0 <= i < fb.pixels.Length {
        fb.pixels[i] := BACKGROUND;
      }
    }

    /** The wall loop of `draw_3D` for one sector: its walls in index order,
        each with the sector's base level and height. */
    method DrawSector(sec: Sector, walls: array<Wall>, player: Player, pCos: real, pSin: real)
      requires Valid() && 0 <= sec.wallStart && sec.wallEnd <= walls.Length
      modifies fb.pixels
      ensures fb.pixels[..] == DrawWalls(old(fb.pixels[..]), walls[..], sec.wallStart, sec.wallEnd,
        sec.baseLevel, sec.height, View(fb.width, fb.height, sw2, sh2, player.pos, pCos, pSin))
    {
      ghost var view := View(fb.width, fb.height, sw2, sh2, player.pos, pCos, pSin);
      ghost var before := fb.pixels[..];
      var w := sec.wallStart;
      while w < sec.wallEnd
        invariant sec.wallStart <= w && (w <= sec.wallEnd || w == sec.wallStart)
        invariant fb.pixels[..] == DrawWalls(before, walls[..], sec.wallStart, w, sec.baseLevel, sec.height, view)
      {
        DrawWall(walls[w], player, pCos, pSin, sec.baseLevel, sec.height);
        w := w + 1;
      }
    }

    /** The drawing loop of `draw_3D`: every sector, in array order. */
    method DrawSectorsInOrder(mapData: MapData, player: Player, pCos: real, pSin: real)
      requires Valid() && mapData.Valid()
      modifies fb.pixels
      ensures fb.pixels[..] == DrawSectors(old(fb.pixels[..]), mapData.sectors[..], mapData.walls[..],
        View(fb.width, fb.height, sw2, sh2, player.pos, pCos, pSin))
    {
      ghost var view := View(fb.width, fb.height, sw2, sh2, player.pos, pCos, pSin);
      ghost var before := fb.pixels[..];
      ghost var secs := mapData.sectors[..];
      var s := 0;
      while s < mapData.sectorCount
        invariant 0 <= s <= |secs| && RangesInside(secs[..s], mapData.walls.Length)
        invariant fb.pixels[..] == DrawSectors(before, secs[..s], mapData.walls[..], view)
      {
        assert secs[..s + 1][..s] == secs[..s];
        DrawSector(mapData.sectors[s], mapData.walls, player, pCos, pSin);
        s := s + 1;
      }
      assert secs[..s] == secs;
    }

    /** `draw_3D`: give every sector its distance from the player, sort them
        farthest first, then draw the walls of each sector in that order. */
    method Draw3D(player: Player, mapData: MapData, libm: Libm)
      requires Valid() && mapData.Valid()
      modifies fb.pixels, mapData.sectors
      ensures mapData.Valid()
      // the sectors are the old ones with fresh depths, now farthest first
      ensures multiset(mapData.sectors[..]) == multiset(WithDepths(old(mapData.sectors[..]), player.pos, libm.sqrt))
      ensures DepthSorted(mapData.sectors[..])
      ensures forall k :: 0 <= k < mapData.sectors.Length ==>
        mapData.sectors[k].zDepth == Distance(libm.sqrt, player.pos.x, player.pos.y, mapData.sectors[k].center.x, mapData.sectors[k].center.y)
      // the frame is the painter's algorithm over that order
      ensures fb.pixels[..] == DrawSectors(old(fb.pixels[..]), mapData.sectors[..], mapData.walls[..], ViewOf(player, libm))
    {
      var pCos := libm.cos(player.camDir.x);
      var pSin := libm.sin(player.camDir.x);
      ghost var original := mapData.sectors[..];
      AssignDepths(mapData.sectors, mapData.sectorCount, player.pos, libm.sqrt);
      SortByDepth(mapData.sectors);
      ReorderedDepths(original, mapData.sectors[..], player.pos, libm.sqrt, mapData.walls.Length);

      DrawSectorsInOrder(mapData, player, pCos, pSin);
    }

    /** `draw_player_top`: a 4x4 red block at the player's position and one
        red pixel in the view direction.  The source checks no bounds, so
        every index must already be inside the array. */
    method DrawPlayerTop(player: Player, libm: Libm)
      requires Valid()
      requires forall k :: 0 <= k < 17 ==> 0 <= MarkerIndices(player, libm, fb.width)[k] < fb.pixels.Length
      modifies fb.pixels
      ensures fb.pixels[..] == MarkerPixels(old(fb.pixels[..]), MarkerIndices(player, libm, fb.width))
    {
      ghost var idx := MarkerIndices(player, libm, fb.width);
      ghost var before := fb.pixels[..];
      var px := Trunc(player.pos.x);
      var py := Trunc(player.pos.y);
      var dirX := px + Trunc(20.0 * libm.sin(player.camDir.x));
      var dirY := py + Trunc(20.0 * libm.cos(player.camDir.x));
      var y := -2;
      while y < 2
        invariant -2 <= y <= 2
        invariant fb.pixels[..] == MarkerPixels(before, idx[..4 * (y + 2)])
      {
        var x := -2;
        while x < 2
          invariant -2 <= x <= 2
          invariant fb.pixels[..] == MarkerPixels(before, idx[..4 * (y + 2) + (x + 2)])
        {
          ghost var k := 4 * (y + 2) + (x + 2);
          DivModUnique(k, y + 2, x + 2, 4);
          assert idx[k] == (y + py) * fb.width + (x + px);
          MarkStep(before, idx, k);
          fb.pixels[(y + py) * fb.width + (x + px)] := RED;
          x := x + 1;
        }
        y := y + 1;
      }
      MarkStep(before, idx, 16);
      fb.pixels[dirY * fb.width + dirX] := RED;
      assert idx[..17] == idx;
    }

    /** `draw_wall`: project the wall, then fill the vertical span of every
        column in range with the wall colour. */
    method DrawWall(wall: Wall, player: Player, viewCos: real, viewSin: real, secBaseLevel: real, secHeight: real)
      requires Valid()
      modifies fb.pixels
      ensures fb.pixels[..] == WallPixels(old(fb.pixels[..]),
        View(fb.width, fb.height, sw2, sh2, player.pos, viewCos, viewSin),
        ProjectWall(wall, View(fb.width, fb.height, sw2, sh2, player.pos, viewCos, viewSin), secBaseLevel, secHeight),
        wall.color)
    {
      var view := View(fb.width, fb.height, sw2, sh2, player.pos, viewCos, viewSin);
      var plan := ProjectWall(wall, view, secBaseLevel, secHeight);
      if plan.None? {
        return;
      }
      var p := plan.value;
      ghost var before := fb.pixels[..];
      var xMin := p.sxB;
      var xMax := p.exB;
      if xMin < 1 { xMin := 1; }
      if xMax > fb.width - 1 { xMax := fb.width - 1; }
      var dx := (p.exB - p.sxB) as real;
      assert (xMin, xMax) == ColumnRange(p, fb.width);
      PaintedNothingYet(before, p, view, wall.color);
      var x := xMin;
      while x < xMax
        invariant xMin <= x
        invariant fb.pixels[..] == Painted(before, p, view, wall.color, x, 0)
      {
        var factor := (x - p.sxB) as real / dx;
        var yB := Trunc(Lerp(p.syB, p.eyB, factor));
        var yT := Trunc(Lerp(p.syT, p.eyT, factor));
        if yT < 1 { yT := 1; }
        if yB > fb.height - 1 { yB := fb.height - 1; }
        assert (yT, yB) == RowSpan(p, fb.height, x);
        PaintedColumnStart(before, p, view, wall.color, x);
        var y := yT;
        while y <= yB
          invariant yT <= y
          invariant fb.pixels[..] == Painted(before, p, view, wall.color, x, y)
        {
          assert Covers(p, fb.width, fb.height, x, y);
          PaintedRowStep(before, p, view, wall.color, x, y);
          fb.pixels[y * fb.width + x] := wall.color;
          y := y + 1;
        }
        PaintedColumnEnd(before, p, view, wall.color, x, y);
        x := x + 1;
      }
      PaintedAll(before, p, view, wall.color, x);
    }

    /** `draw_game`: clear, draw the sectors, then the top-down player marker.
        The text overlay goes through raylib and is not part of the model. */
    method DrawGame(player: Player, mapData: MapData, libm: Libm, dt: real) returns (ok: bool)
      requires Valid() && mapData.Valid()
      requires forall k :: 0 <= k < 17 ==> 0 <= MarkerIndices(player, libm, fb.width)[k] < fb.pixels.Length
      modifies fb.pixels, mapData.sectors
      ensures ok && mapData.Valid() && DepthSorted(mapData.sectors[..])
      ensures multiset(mapData.sectors[..]) == multiset(WithDepths(old(mapData.sectors[..]), player.pos, libm.sqrt))
      ensures fb.pixels[..] == MarkerPixels(
        DrawSectors(seq(fb.pixels.Length, _ => BACKGROUND), mapData.sectors[..], mapData.walls[..], ViewOf(player, libm)),
        MarkerIndices(player, libm, fb.width))
    {
      ClearFramebuffer();
      Draw3D(player, mapData, libm);
      DrawPlayerTop(player, libm);
      ok := true;
    }
  }
}
