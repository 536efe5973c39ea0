# DNF core, modelled in Dafny

DNF (Doomed and Forgotten) is a small DOOM-style shooter written in C on top
of raylib. This project models its deterministic core and proves properties
of that model:

- **The wall rasteriser** (`game/src/game_render.c`). Each frame the game
  clears a row-major framebuffer and gives every sector its distance from
  the player. It sorts the sectors farthest first (`qsort` with
  `compare_sectors`). Then it draws every wall of every sector in that
  order. `draw_wall` moves a wall into camera space, clips it against the
  near plane and projects it. Back faces are culled. The wall is then
  filled column by column, with vertical spans between interpolated top
  and bottom rows. The columns are clamped to stay off the first and last
  columns, and the rows to stay off the first row and inside the last one. The model states
  the pixel array after every operation as a function of the pixel array
  before it: `WallPixels`, `DrawWalls`, `DrawSectors` and `MarkerPixels`.
- **Map construction and player movement** (`game/src/game.c`).
  `dnf_game_init` copies the static level tables into freshly allocated
  arrays. It stores each sector's centre as the mean of its wall
  midpoints. `dnf_game_update` clamps the position, turns, and then moves
  along the new view direction.
- **The input state machine** (`core/src/input_system.c`). Every action
  is IDLE, RELEASED, PRESSED or HELD. Once per update, each action steps
  by whether its bound key or mouse button is down.
- **The two log buffers**. `core/src/log.c` has a 4 KiB buffer: a line
  that does not fit makes it flush first and then append the line.
  `core/src/logger.c` has a 32 KiB buffer: a message that does not fit
  makes it flush and drop the message. In both, the file is a ghost byte
  sequence and a formatted line is an opaque byte sequence.
  `SaveFileData` replaces the whole file, so in the logger.c revision the
  file holds only the last chunk saved. The ghost `saved` sequence is what
  an appending file would hold.
- **The letterbox fit** (`core/src/renderer.c`). The framebuffer is scaled
  into the window by the smaller of the two ratios and centred.

Modelling conventions:

- `float32_t` values are `real`. A C cast `(int32_t)f` is `Numeric.Trunc`,
  which truncates toward zero.
- `sinf`, `cosf` and `sqrtf` are function parameters, bundled as
  `Numeric.Libm`.
- raylib's `IsKeyDown` and `IsMouseButtonDown` are parameters of
  `InputSystem.InputHandler.Update`.
- The actions game.c queries through `is_held` are a set of held actions.
- Objects whose fields the C code updates in place are classes. These
  are the framebuffer, the renderer context, the map, the game state, the
  input handler and the two loggers.

The model follows the code on these points:

- The sector depth is `sqrtf` of the squared distance, as `distance`
  computes it. `GameRender.DistanceOrderIsSquaredDistanceOrder` shows that
  the resulting order is the same for any increasing square root.
- The centre is divided by the wall count with no guard. The tables never
  hold an empty sector, as `Game.LoadTablesWellFormed` shows.
- The yaw wraps only past `±TAU`, so it stays in the closed range
  `[-TAU, TAU]`.
- `map.wall_count` is set to `wall_per_sector` (5), not to the number of
  walls.

## Model

| member | source | states |
|---|---|---|
| GameRender.SquaredDistanceNonNegative | game/src/game_render.c:58-65 | the squared planar distance under `sqrtf` is never negative |
| GameRender.Distance | game/src/game_render.c:58-65 | `distance` is the square root of the squared planar distance and is the same measured from either end |
| GameRender.DistanceOrderIsSquaredDistanceOrder | game/src/game_render.c:58-65 | for any strictly increasing square root, one sector is farther than another by `distance` exactly when it is farther by squared distance |
| GameRender.CompareSectors | game/src/game_render.c:67-75 | the comparator returns -1, 0 or 1: -1 exactly when the first depth is greater, 1 exactly when it is smaller |
| GameRender.CompareSectorsIsConsistent | game/src/game_render.c:67-75 | the comparator is antisymmetric and transitive, which is what `qsort` requires |
| GameRender.WithDepths | game/src/game_render.c:185-188 | every sector keeps all its fields except `z_depth`, which becomes its centre's distance from the player |
| GameRender.ReorderedDepths | game/src/game_render.c:185-189 | after any permutation of the depth-assigned sectors, each sector still carries its own distance and keeps its wall range inside the wall array |
| GameRender.AssignDepths | game/src/game_render.c:185-188 | the depth loop leaves the array equal to `WithDepths` of the old array |
| GameRender.SortByDepth | game/src/game_render.c:189 | the sort leaves the sectors farthest first and a permutation of the old ones |
| GameRender.RotationKeepsDistance | game/src/game_render.c:100-111 | when cos² + sin² = 1, the translate-and-rotate into camera space keeps the distance to the player |
| GameRender.ToCamera | game/src/game_render.c:100-111 | the translate-and-rotate of one point: the player lands on the camera's origin, and with no rotation the transform is the translation by the player |
| GameRender.ToCameraSpace | game/src/game_render.c:100-111 | both ends of a wall go through `ToCamera` with the view's cosine and sine |
| GameRender.ViewDirectionIsDepthAxis | game/src/game_render.c:107-111 | a point ahead along the direction `dnf_game_update` walks lands on the camera's depth axis at the same distance |
| GameRender.ClipNear | game/src/game_render.c:113-130 | a wall with both ends nearer than `near_z` is discarded; otherwise both depths end up at least `near_z`; an unclipped wall is unchanged, and a clipped end is moved along the segment by `t` onto the plane |
| GameRender.ClipPointOnSegment | game/src/game_render.c:118-129 | the clipping coefficient lies in [0, 1] and puts the clipped end exactly at depth `near_z` |
| GameRender.ScreenColumn | game/src/game_render.c:133-137 | a point on the depth axis lands on the centre column, a point right of it never right of the centre and a point left of it never left of it |
| GameRender.ScreenColumnWithinOne | game/src/game_render.c:133-137 | a projected screen column is within one pixel of the exact perspective projection |
| GameRender.ScreenRow | game/src/game_render.c:141-148 | a height at eye level lands on the centre row, one above the eye above it and one below the eye below it |
| GameRender.ProjectWall | game/src/game_render.c:100-158 | no plan when the wall is behind the near plane; after clipping, the wall is culled exactly when its start column is not left of its end column; a kept wall has `sx_b < ex_b`, so the `dx <= 0` return can never fire |
| GameRender.ColumnRange | game/src/game_render.c:150-154 | the projected columns cut to the frame without its first and last column: each end is the projected one unless that lies outside |
| GameRender.RowSpan | game/src/game_render.c:160-171 | the interpolated rows of one column, clamped so that the span never reaches the first row nor passes the last one |
| GameRender.Covers | game/src/game_render.c:150-171 | every pixel in a wall's spans is inside the frame, off the first row and off the first and last columns |
| GameRender.WallPixels | game/src/game_render.c:160-176 | drawing a wall changes pixels only to the wall colour, keeps the array length, and changes nothing for a culled wall |
| GameRender.PixelIndex | game/src/game_render.c:175 | `y * width + x` is inside the array and decodes back to column `x` and row `y` |
| GameRender.WallMissesBorder | game/src/game_render.c:150-171 | a wall never paints the first row or the first or last column |
| GameRender.DrawWalls | game/src/game_render.c:196-198 | drawing a sector's walls keeps the array length |
| GameRender.DrawSectors | game/src/game_render.c:192-199 | drawing the sectors in order keeps the array length |
| GameRender.DrawWallsColors | game/src/game_render.c:196-198 | after a sector's walls are drawn, each pixel is unchanged or has the colour of one of those walls |
| GameRender.DrawnPixelsAreWallColors | game/src/game_render.c:192-199 | after all sectors are drawn, each pixel is unchanged or has the colour of a wall of a drawn sector |
| GameRender.DrawWallsMissesBorder | game/src/game_render.c:196-198 | a sector's walls leave the first row and the first and last columns unchanged |
| GameRender.DrawSectorsMissesBorder | game/src/game_render.c:192-199 | a whole frame of sectors leaves the first row and the first and last columns as the clear left them |
| GameRender.MarkerIndices | game/src/game_render.c:77-90 | the player marker writes 17 pixels: sixteen form the 4x4 block from two pixels up and left of the truncated position, row by row, and the last is twenty units ahead along the yaw |
| GameRender.MarkerPixels | game/src/game_render.c:77-90 | the marker only ever writes RED |
| GameRender.GameRenderer.InitRenderer | game/src/game_render.c:38-48 | the renderer keeps the context's framebuffer and caches half its width and half its height |
| GameRender.GameRenderer.ClearFramebuffer | game/src/game_render.c:53-56 | every pixel becomes the colour whose four bytes are all 0x50 |
| GameRender.GameRenderer.DrawWall | game/src/game_render.c:92-177 | the column and row loops leave exactly `WallPixels` of the old pixels for the projected wall |
| GameRender.GameRenderer.DrawSector | game/src/game_render.c:196-198 | the wall loop for one sector yields `DrawWalls` over its range |
| GameRender.GameRenderer.DrawSectorsInOrder | game/src/game_render.c:192-199 | the sector loop yields `DrawSectors` over the array order |
| GameRender.GameRenderer.Draw3D | game/src/game_render.c:179-200 | the sectors become a permutation of the old ones with fresh depths, farthest first, still valid; the frame is the painter's algorithm over that order |
| GameRender.GameRenderer.DrawPlayerTop | game/src/game_render.c:77-90 | the marker pixels become RED and nothing else changes |
| GameRender.GameRenderer.DrawGame | game/src/game_render.c:202-221 | the frame is the sorted sectors drawn over the cleared background, with the marker on top, and it returns true |
| Game.LoadTablesWellFormed | game/src/game.c:37-71 | five sectors and twenty walls; every sector range is non-empty and inside the walls; the ranges tile the wall table in order |
| Game.WallCountIsNotWallsCopied | game/src/game.c:101-105 | the stored `wall_count` (5) is not the number of walls the sectors use (20) |
| Game.MidpointSumInBox | game/src/game.c:118-126 | the sum of k wall midpoints lies between k times the lower and k times the upper corner of any box holding the walls |
| Game.SectorCenter | game/src/game.c:116-128 | the centre is the mean of the wall midpoints; `CenterInBox` and `FirstRoomCenter` state what it is |
| Game.CenterInBox | game/src/game.c:116-128 | a sector's computed centre lies inside every box that holds all its walls |
| Game.FirstRoomCenter | game/src/game.c:46-49 | the first room, the square (100..132)², gets the centre (116, 116) |
| Game.CopyWalls | game/src/game.c:118-126 | the walls of the range are copied from the table and nothing else changes; the returned sum is the sum of their midpoints |
| Game.BuildSector | game/src/game.c:109-131 | one sector gets its range, levels and computed centre; only its own walls and its own slot change |
| Game.BuildMap | game/src/game.c:101-131 | 25 walls and 5 sectors are allocated; every sector is built from the tables and every wall in a range is the table's wall; `wall_count` is 5 and the map is valid |
| Game.Clamp | game/src/game.c:143-144 | the clamped coordinate is in range; it is unchanged when already in range, and the bound it passed otherwise |
| Game.TurnedYaw | game/src/game.c:149-163 | the yaw after the rotation block; `TurnedYawStaysInRange` and `TurnedYawIsOneStep` state what it is |
| Game.TurnedYawStaysInRange | game/src/game.c:150-163 | a yaw in [-TAU, TAU] stays in [-TAU, TAU] |
| Game.TurnedYawIsOneStep | game/src/game.c:150-163 | the new yaw is the old one plus -rot_speed (secondary attack), +rot_speed (primary attack) or 0, up to one full turn |
| Game.PlanarStepSplits | game/src/game.c:169-189 | the planar step is the sum of the forward/backward part and the left/right part |
| Game.PlanarStepBound | game/src/game.c:169-189 | on each axis the step is at most \|dx\| + \|dy\| |
| Game.MoveStaysNearBox | game/src/game.c:142-189 | the clamp runs before the move, so after an update the position is outside the clamp box by at most one step |
| Game.StepLength | game/src/game.c:166-189 | with a unit view vector, a straight step has length `speed*dt`, a diagonal one √2 times that, and with no movement held the step is zero |
| Game.UpdatedPlayer | game/src/game.c:140-197 | the player after one update, the specification `GameState.Update` is proved against: clamp, turn, then the step along the turned yaw; `MoveStaysNearBox` and `StepLength` state what it does |
| Game.GameState.Init | game/src/game.c:74-138 | the renderer keeps the context's framebuffer and caches half its width and height as the screen centre, the player is at (120, 150, 30) facing yaw PI, and the map is built from the tables |
| Game.GameState.Update | game/src/game.c:140-197 | the new player is `UpdatedPlayer` of the old one: clamp, turn, then move along the turned view direction |
| Game.GameState.ClampPosition | game/src/game.c:142-144 | x and y are clamped to [20, 600] and [20, 450]; z and the camera are unchanged |
| Game.GameState.Turn | game/src/game.c:149-163 | the yaw becomes `TurnedYaw`; the position is unchanged |
| Game.GameState.MoveAlong | game/src/game.c:166-178 | the position moves by the forward/backward part of the planar step |
| Game.GameState.Strafe | game/src/game.c:180-189 | the position moves by the left/right part of the planar step |
| Game.GameState.Climb | game/src/game.c:191-194 | z moves by `speed*dt`, up or down, with up winning |
| Game.GameState.Render | game/src/game.c:199-202 | rendering yields the `DrawGame` frame, leaves the sectors sorted farthest first and a permutation of the old ones with fresh depths, and returns true |
| InputSystem.Ordinal | core/include/input_system.h:62-68 | the four states are numbered 0 to 3 |
| InputSystem.OrdinalInjective | core/include/input_system.h:62-68 | distinct states have distinct enum values, so the `<=`/`>=` tests in the update separate the intended pairs |
| InputSystem.NextState | core/src/input_system.c:53-71 | the ordinal comparisons implement the transition table: down takes IDLE or RELEASED to PRESSED and PRESSED or HELD to HELD; up takes PRESSED or HELD to RELEASED and IDLE or RELEASED to IDLE |
| InputSystem.NextStateTracksKey | core/src/input_system.c:53-71 | after a step, the state is PRESSED or HELD exactly when the key is down; it is PRESSED exactly on a new press and RELEASED exactly on a new release |
| InputSystem.TransientStates | core/src/input_system.c:53-71 | PRESSED and RELEASED last one update: PRESSED is followed by HELD or RELEASED, and RELEASED by PRESSED or IDLE |
| InputSystem.RunDependsOnLastTwo | core/src/input_system.c:40-73 | after two or more updates, the state is determined by the last two key samples alone |
| InputSystem.CurrentDown | core/src/input_system.c:46-51 | the key bit of an action: the keyboard for actions up to INTERACT, the mouse for ATTACK1 and ATTACK2, up otherwise |
| InputSystem.InputHandler.Init | core/src/input_system.c:23-38 | the seven actions get W, S, A, D, E, the left and the right mouse button; slot 0 is not written; every state is IDLE |
| InputSystem.InputHandler.Update | core/src/input_system.c:40-73 | every action but NONE steps by `NextState` with its key (actions up to INTERACT) or mouse button (the attacks); NONE is untouched |
| InputSystem.InputHandler.CurrentState | core/src/input_system.c:75-78 | the stored state of an action |
| InputSystem.InputHandler.IsPressed | core/src/input_system.c:80-83 | the action is PRESSED; with `QueriesExclusive`, never also held or released |
| InputSystem.InputHandler.IsHeld | core/src/input_system.c:85-88 | the action is HELD; with `QueriesExclusive`, never also pressed or released |
| InputSystem.InputHandler.IsReleased | core/src/input_system.c:90-93 | the action is RELEASED; with `QueriesExclusive`, never also pressed or held |
| InputSystem.InputHandler.QueriesExclusive | core/src/input_system.c:75-93 | at most one of pressed, held and released answers true; all three are false exactly when the action is IDLE |
| Log.LevelNamesMatchLevels | core/src/log.c:52-60 | one name per level of the seven-value enum, all distinct |
| Log.StreamFor | core/src/log.c:222 | a line goes to stderr exactly when its level is FATAL |
| Log.FlushesFirst | core/src/log.c:225-227 | the buffer is flushed first when the line alone fills the buffer or the line behind the pending bytes does |
| Log.BufferAfter | core/src/log.c:224-231 | the flushed bytes followed by the new buffer are the old buffer followed by the line; a buffer that fits keeps fitting |
| Log.CopiedLength | core/src/log.c:212-219 | the bytes `snprintf` stores are fewer than the 1024 of `log_line`, never more than the full length, and all of it when it fits |
| Log.AsWrittenOverruns | core/src/log.c:226-231 | as written, a 1100-byte line is copied by its full length out of the 1024-byte `log_line`, and a 5000-byte line ends past the 4096-byte buffer |
| Log.PosAfterAsWritten | core/src/log.c:226-231 | the position as the source advances it, by the returned length after an optional flush; `AsWrittenOverruns` and `CopiedLengthStaysInBuffer` compare it with the stored length |
| Log.CopiedLengthStaysInBuffer | core/src/log.c:226-231 | copying the stored length keeps the position inside the buffer for every returned length |
| Log.LogSystem.Flush | core/src/log.c:127-144 | the pending bytes are appended to the file if one is open; the buffer is emptied; an empty buffer writes nothing |
| Log.LogSystem.Init | core/src/log.c:164-178 | a second call changes nothing; the first creates an empty file (if `open` succeeds), zeroes and empties the buffer and sets the flag |
| Log.LogSystem.Close | core/src/log.c:149-162 | does nothing when not initialised; otherwise flushes, closes and clears the flag, after which an open file holds every accepted line in order |
| Log.LogSystem.LogMessage | core/src/log.c:182-232 | a level below DEBUG changes nothing; otherwise the line is echoed to `StreamFor(level)` and buffered as `BufferAfter` says, the flushed bytes reach the file, and the invariant (file + buffer = accepted lines) is kept |
| Logger.LevelNamesMatchLevels | core/src/logger.c:36-39 | one name per level of the six-value enum, all distinct |
| Logger.StreamFor | core/src/logger.c:106-110 | a message goes to stderr exactly when its level is ERROR or FATAL |
| Logger.Overflows | core/src/logger.c:112-114 | a message is refused when it reaches the 8 KiB message limit or would fill the buffer behind the pending bytes |
| Logger.BufferAfter | core/src/logger.c:112-119 | a message that fits is appended; one that does not is never buffered, and the buffer is emptied only by a successful save; a buffer that fits keeps fitting |
| Logger.RevisionsDifferOnOverflow | core/src/logger.c:112-119 | on a line that overflows each revision's own buffer, with a successful write, log.c flushes and keeps the line as its only content while logger.c flushes and drops it; a line log.c must flush for still fits logger.c's buffer behind the same pending bytes |
| Logger.LoggerState.Flush | core/src/logger.c:50-61 | an empty buffer returns true without writing; a failed save returns false and changes nothing; a successful one replaces the file with the pending bytes, empties the buffer and returns true |
| Logger.LoggerState.Shutdown | core/src/logger.c:72-75 | when the final save of a non-empty buffer succeeds, the file holds only that last chunk, since `SaveFileData` overwrites it, and `saved`, every chunk passed to `SaveFileData` in order, is everything ever appended; otherwise the file is unchanged |
| Logger.LoggerState.LogMessage | core/src/logger.c:77-120 | the message is echoed to `StreamFor(level)`, buffered as `BufferAfter` says, and only appended messages enter the journal |
| Renderer.FitScale | core/src/renderer.c:63-66 | the scale is the smaller of the two window-to-target ratios |
| Renderer.Letterbox | core/src/renderer.c:58-75 | the rectangle fits the window, touches it on one axis, keeps the target's aspect ratio and is centred with equal, non-negative margins |
| Renderer.RendererContext.Init | core/src/renderer.c:28-56 | the framebuffer gets the requested width and height and a fresh all-BLACK pixel array; the target has the same size; it returns true |
| Renderer.RendererContext.ResizeWindow | core/src/renderer.c:58-75 | the four field assignments leave the screen rectangle equal to `Letterbox` |

## Findings

| source | as written | input that shows it | evidently intended | confidence | as-written member | corrected member |
|---|---|---|---|---|---|---|
| core/src/log.c:214-231 | `len` is `snprintf`'s return value, which is the untruncated line length. `memcpy` copies `len` bytes from the 1024-byte `log_line`, and advances `log_buffer_pos` by `len`. | A 767-character message logged from a file whose `__FILE__` is 250 characters long. The full line is then longer than 1024 bytes, so `memcpy` reads past `log_line`. A line of 4096 bytes or more also writes past `log_buffer` after the flush. | Copy only the bytes `snprintf` stored, at most 1023. The position then stays below 4096. | medium, not executed | Log.AsWrittenOverruns | Log.CopiedLengthStaysInBuffer |

## Left out

- Everything raylib draws or uploads is not modelled. This covers the text and FPS overlay of `draw_game`, `renderer_begin_frame`, `renderer_end_frame` and `renderer_shutdown`. It also covers `GenImageColor`'s image and the texture calls in `renderer_init`. These are foreign calls with no state the model can see.
- 32-bit float rounding and `int32_t` cast overflow are not modelled. Values are exact reals, and the cast is only truncation.
- `sinf`, `cosf` and `sqrtf` are parameters, not definitions.
- `TAU` comes from a header outside this repository (`raymath.h`), which is not part of this model. The model takes it as `2 * PI`.
- GameRender.SortByDepth: states that the result is sorted and a permutation. It does not state which order `qsort` gives sectors of equal depth. `qsort` is not stable, and the C library fixes that order. The frame `Draw3D` and `DrawGame` describe is drawn in the model's order.
- Game.BuildMap: `malloc` returns uninitialised memory. The model fills the wall array with walls whose four coordinates are zero and whose colour is BLACK (alpha 255), and the sector array with all-zero sectors. The five walls past the table (indices 20 to 24) therefore hold those filler walls, and each sector's first `z_depth` is zero.
- GameRender.GameRenderer.DrawPlayerTop: requires every marker index to be inside the pixel array. The source writes without a bounds check, and an index outside the array is undefined behaviour. `DrawGame` and `Game.GameState.Render` carry the same requirement.
- Game.GameState.Update: the held actions are a set of actions. In the source they are answers of the `input->is_held` callback, and the model does not cover how those are bound.
- Game.GameState.Init: the `DNF_DEBUG` logging is not modelled. `init_renderer` always returns true, so the failure branch never runs.
- Log.LogSystem.LogMessage: copies the bytes `snprintf` stored, not the length it returned (see Findings). Time stamps, `vsnprintf_s` and `snprintf` formatting are not modelled. The formatted line is an opaque byte sequence.
- Log.LogSystem.Flush: a short `write` is not modelled. The whole buffer reaches an open file.
- Log.LogSystem.Init: the `atexit` registration and the console messages of close are not modelled. `Close` is a method the caller invokes.
- Logger.LoggerState.Flush: a failed `SaveFileData` leaves the modelled file unchanged. raylib does not specify what a half-written file holds.
- `dnf_logger_init` only creates the `./logs` directory. That is file-system I/O with no buffer state, so it is not modelled.
