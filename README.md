# A verified model of the 2D tile game's core

The game is a Swing top-down RPG. The player walks over a tile map. The map has a
background layer (land, grass and animated water) and a fence layer that blocks
movement. This project models the game's rule-bearing logic in Dafny:

- **Fence layer** (`TileSettings`, file `tile_setting.dfy`): class `TileSetting` converts
  the integer collision layer to a boolean grid in nested loops. It also picks one of 16
  fence sprites from a tile's four neighbours, keeps a snap-to-centre camera, and computes
  the visible tile range. Its collision resolver `IsCollidable` scans a window of tiles
  around a 24×24 player hitbox and pushes the position out of the blocking tiles it
  crosses. The resolver's specification is module `Collision` (`collision.dfy`), a set of
  functions over the grid.
- **Player** (`Motion`, `player.dfy`): the key latches with their opposite-key rule, the
  run modifier, the twelve animation states and the animation clock. These are pure
  functions; class `Player` runs them on mutable fields and is proved to follow them.
- **Background layer** (`Background`, `game_map.dfy`): class `GameMap` holds the terrain
  grid, the same camera, and the water-animation clock. It also has the per-cell sprite
  choice, the redraw loops (as a list of draw calls) and the bounds-checked in-place tile
  write. `PlaceWater` is the game panel's Enter key, which puts water under the player.
- **Layer repair** (`Repair`, `repair.dfy`): pads the two comma-separated layer files to a
  common number of rows and columns. Both methods, `FindMaxColumns` and `NormalizeLayer`,
  are loops proved against pure functions. The Java string operations they use
  (`replaceAll(" ", "")`, `split(",")` with its trailing-empty rule, `trim()`, `repeat`)
  are modelled in `JavaString` (`java_string.dfy`).
- **Hitbox record** (`Hitbox`, `hitbox.dfy`): the mutable record the player and the
  resolver share.

The constants are those of `src/Value.java` (module `Config`). Some examples: tile size 48,
walk/run speed 2/8, animation periods 20/10/8, a water frame every 800 ms, and water code 12.
Java's truncating `/` and `%` are in module `JavaMath`. Every division on a modelled path
has non-negative operands (screen sizes are required to be non-negative, cameras are
clamped, and the resolver checks the screen bounds first). The one place where truncation
matters is the Enter key, where the player can stand left of the map.

## Model

| member | source | states |
|---|---|---|
| Viewport.Offset | src/TileSetting.java:64-70 | The camera is never negative. It is at most `world - screen` when the world is at least as wide as the screen, and 0 when the world is narrower. It is exactly `track - screen/2` whenever that lies within the clamp. |
| Viewport.OffsetIsNearest | src/GameMap.java:103-109 | Of all the camera offsets the clamp allows, the chosen one is the nearest to centring the player. |
| Viewport.VisibleSpan | src/TileSetting.java:90-93 | The first and last visible tile on an axis lie within the grid. |
| Viewport.VisibleSpanExact | src/GameMap.java:120-123 | A tile is in the visible span exactly when it is in the grid and its 48 pixels meet the screen's pixels `[cam, cam + screen]`. |
| Viewport.VisibleRange | src/GameMap.java:120-123 | The visible block lies within `[0, rows-1] × [0, cols-1]`. |
| Collision.Contact | src/TileSetting.java:205-240 | One blocking tile sets the vertical flag exactly when it overlaps the hitbox and one of its horizontal edges is strictly inside the hitbox rows. It then moves y to that edge's push target. The same holds horizontally. Otherwise nothing changes. |
| Collision.ScanWindow | src/TileSetting.java:198-201 | The scanned window never leaves the grid. |
| Collision.ScanColsFacts | src/TileSetting.java:204-242 | After part of a row is scanned, a flag is set exactly when it was set before or some blocking tile of that part pushes on its axis. A coordinate is either unchanged or the push target of such a tile. |
| Collision.ScanRowsFacts | src/TileSetting.java:203-243 | The same facts for whole rows of the window. |
| Collision.ResolveRefusesIff | src/TileSetting.java:189-250 | A move is refused exactly when the sprite box leaves the screen or some blocking tile of the window pushes the hitbox on either axis. |
| Collision.ResolveAllowedKeepsPosition | src/TileSetting.java:246-250 | An allowed move writes the position back unchanged. |
| Collision.ResolvePushTargets | src/TileSetting.java:220-247 | Every corrected coordinate is flush against an edge of a blocking tile of the window that pushes on that axis (its top edge minus 48, its 32-pixel box's bottom edge, and likewise left and right). |
| Collision.ResolveLoneTile | src/TileSetting.java:215-250 | With a single blocking tile in the window, the resolver does exactly what that tile's contact does. For a tile whose top edge lies strictly inside the hitbox rows, y becomes that edge minus 48 and the move is refused. |
| TileSettings.FenceIndex | src/TileSetting.java:114-129 | Every neighbour pattern gets a sprite index in 0..15. |
| TileSettings.FenceIndexInjective | src/TileSetting.java:114-129 | `FencePattern` inverts the sprite choice, so the 16 patterns get 16 different sprites. |
| TileSettings.FenceIndexOnto | src/TileSetting.java:114-129 | Every index 0..15 is chosen for its pattern. All four neighbours give 4 and none gives 15. |
| TileSettings.TileSetting.constructor | src/TileSetting.java:26-40 | The grid keeps the layer's dimensions. A cell is blocking exactly when its code is non-zero, and both cameras start at 0. |
| TileSettings.TileSetting.ConvertToBooleanArray | src/TileSetting.java:169-177 | A fresh array of the layer's row count by its first row's width. A cell is true exactly when it exists in its row and its code is non-zero. |
| TileSettings.TileSetting.UpdateCamera | src/TileSetting.java:64-70 | The new camera is `Offset` of the player position on each axis, whatever the old camera was. |
| TileSettings.TileSetting.VisibleFences | src/TileSetting.java:90-93 | The fence tiles visited by a redraw lie inside the grid. |
| TileSettings.TileSetting.FenceTileIndex | src/TileSetting.java:108-130 | The sprite of a fence tile is `FenceIndex` of its four neighbours, where a neighbour off the grid counts as open. It is always in 0..15. |
| TileSettings.TileSetting.CollisionMap | src/TileSetting.java:253-256 | Times the tile size, argument 0 gives the map height and any other argument gives the map width. |
| TileSettings.TileSetting.ScanRow | src/TileSetting.java:204-242 | The inner loop leaves the position and flags that `ScanCols` specifies for that row. |
| TileSettings.TileSetting.IsCollidable | src/TileSetting.java:179-251 | Sets the hitbox around the old position and leaves the tile fields alone. The answer and the written position are those of `Resolve`; an off-screen position is refused and written back untouched. No other array element changes, and an allowed move keeps the position. |
| Hitbox.HitboxData.constructor | src/HitboxData.java:3-11 | Every field starts at 0. |
| Hitbox.HitboxData.Update | src/HitboxData.java:13-18 | The four player-box fields are set and the three tile fields are unchanged. |
| Hitbox.HitboxData.UpdateTiles | src/HitboxData.java:19-23 | The three tile fields are set and the four player-box fields are unchanged. |
| Motion.StateNameInjective | src/Player.java:97-98 | Different states have different names, so comparing names is comparing states. |
| Motion.FrameCount | src/Player.java:50-61 | The idle animations have 4 frames, the walking ones 6 and the running ones 8. |
| Motion.AnimationPeriod | src/Player.java:109 | The period is 8 when moving with the run flag, 10 when moving without it, and 20 when not moving. |
| Motion.Initial | src/Player.java:34-43 | The player starts at the given position, idle facing down, with frame 0, no key held, and neither moving nor running. |
| Motion.WithState | src/Player.java:97-106 | A different state restarts the animation at frame 0 and counter 0; the current state leaves it as it was. A valid frame stays valid. |
| Motion.Tick | src/Player.java:108-118 | The counter counts up. When it reaches the period it wraps to 0 and the frame moves to `(frame + 1) mod n`; otherwise the frame is unchanged. The frame stays below the animation's length and the state is unchanged. |
| Motion.DetermineStatePriority | src/Player.java:186-192 | Up takes priority over Down, Down over Left, and Left over Right. The mode is running or walking by the run flag when any key is held; with nothing held the state is idle facing the last released direction. Both directions of each iff are proved. |
| Motion.PressKeys | src/Player.java:123-133 | After a press, each latch is "this key held or pressed, and its opposite neither". Opposite latches are never both held. |
| Motion.Press | src/Player.java:120-164 | The new position is the old one plus one step per remaining latch. The step size uses the run flag from before the press, the run flag then becomes Space's latch, and the state follows `DetermineState`. The moved position is kept whatever the collision check answers. |
| Motion.Release | src/Player.java:166-184 | Releasing Space clears the run flag only. Releasing a direction clears its latch and makes it the last direction. With no latch left the animation becomes `WithState` of idle facing that direction: frame and counter restart at 0 unless the player was already in that state. While a latch is left the animation is untouched, and the position never changes. |
| Motion.UpLeftScenario | src/Player.java:167-192 | Press Up, press Left, release Left, release Up ends idle facing up and not moving. |
| Motion.OppositeKeysCancel | src/Player.java:132-133 | Pressing Up and Down, in either order, holds neither. The second press undoes no move, because it makes no move. |
| Motion.GuardedPressAccepted | src/Player.java:150-155 | The corrected press differs from `Press` only in the position. It moves only to a position the collision check accepts, so a player on the screen stays on it. |
| Motion.PressKeepsRefusedMove | src/Player.java:135-155 | As written, a walking player at x = 0 who presses Left ends at x = -2, a position the collision check refuses. The corrected press keeps x = 0. |
| Motion.Player.constructor | src/Player.java:34-43 | The fields are those of `Initial`. |
| Motion.Player.SetState | src/Player.java:97-106 | The animation becomes `WithState` of the old animation. |
| Motion.Player.Update | src/Player.java:108-118 | The animation becomes `Tick` of the old animation. |
| Motion.Player.HandleKeyPress | src/Player.java:120-164 | The player's fields become `Press` of their old values, and the hitbox record holds the hitbox around the new position. |
| Motion.Player.HandleKeyPressGuarded | src/Player.java:150-155 | The player's fields become `GuardedPress` of their old values, so a refused move is undone. |
| Motion.Player.Latch | src/Player.java:123-133 | The returned latches are those of `PressKeys`; only the Space latch is written. |
| Motion.Player.Move | src/Player.java:121-138 | Each held latch moves one step, walking or running, along its axis. |
| Motion.Player.CheckMove | src/Player.java:141-155 | The answer is that of `Resolve` on the current position, the position is unchanged, and the hitbox surrounds it. |
| Motion.Player.CheckMoveOrUndo | src/Player.java:150-155 | As `CheckMove`, but a refused move returns the position to where it was before the press. |
| Motion.Player.Commit | src/Player.java:157-163 | The moving flag is "some latch held". The run flag becomes the Space latch, the state follows `DetermineState`, and the latches are stored. |
| Motion.Player.HandleKeyRelease | src/Player.java:166-184 | The player's fields become `Release` of their old values. |
| Background.TileVariant | src/GameMap.java:132-136 | A code is drawn animated exactly when it is an animated code (12). It is drawn as a static sheet exactly when it is some other code in 0..1. |
| Background.TileVariantCodes | src/GameMap.java:132-136 | 0 is land, 1 is grass and 12 is water; every other code draws nothing. |
| Background.Water | src/GameMap.java:114-118 | Once the frame has lasted 800 ms, the frame becomes `(f + 1) mod 4` and the time becomes now; before that nothing changes. The frame stays in `[0, 4)`. |
| Background.WaterCycle | src/GameMap.java:114-118 | Four frame changes return the water to its starting frame, and the three frames in between differ from it. |
| Background.GameMap.constructor | src/GameMap.java:33-45 | The layer's cells are copied. The map is `|row 0| × 48` wide and `rows × 48` high, the camera is at 0, the frame is 0, and the frame time is the clock reading. |
| Background.GameMap.UpdateCamera | src/GameMap.java:103-109 | The new camera is `Offset` of the player position on each axis, whatever the old camera was. |
| Background.GameMap.AdvanceWater | src/GameMap.java:113-118 | The water clock becomes `Water` of the old clock at the given time. |
| Background.GameMap.VisibleTiles | src/GameMap.java:120-123 | The visible block lies inside the layer. |
| Background.GameMap.CellDraws | src/GameMap.java:126-136 | A cell gives at most one draw call, never one with no sprite. |
| Background.GameMap.VisibleDrawsExact | src/GameMap.java:120-138 | A redraw draws exactly the visible cells whose code has a sprite, each at `(48 col - camX, 48 row - camY)` with the sprite of its code. |
| Background.GameMap.DrawMap | src/GameMap.java:111-139 | The camera follows the player and the water clock advances. The draw calls are `VisibleDraws`, which are the visible cells row by row and left to right. |
| Background.GameMap.DrawVisible | src/GameMap.java:120-138 | The outer loop produces `VisibleDraws` for the current camera and frame. |
| Background.GameMap.DrawRow | src/GameMap.java:126-137 | The inner loop produces the draw calls of one row's visible cells, left to right. |
| Background.GameMap.SetTile | src/GameMap.java:146-150 | An in-range cell takes the new code and every other cell is unchanged. An out-of-range call changes nothing. |
| Background.GameMap.BgMapSize | src/GameMap.java:152-154 | The row count: positive, and times 48 it is the map height. |
| Background.GameMap.PlaceWater | src/GamePanel.java:86-96 | The cell at the player's truncated tile coordinates becomes water, if it is on the map; no other cell changes. |
| Background.PlaceWaterTruncates | src/GamePanel.java:88-89 | A player up to 47 pixels left of the map edge places water in column 0, where flooring division would give column -1. |
| JavaString.RemoveSpacesFacts | src/RepairSystem.java:63 | `replaceAll(" ", "")` leaves no space and does not change a string without spaces. |
| JavaString.SplitAllFacts | src/RepairSystem.java:77 | No field between commas holds a comma, or a space if the string had none. A string without commas is one field. |
| JavaString.DropTrailingEmptyFacts | src/RepairSystem.java:77 | Java's split drops exactly the trailing empty fields. The result is a prefix, it ends in a non-empty field or is empty, and a list ending in a non-empty field is kept whole. |
| JavaString.SplitFacts | src/RepairSystem.java:63 | `split(",")` fields hold no comma, and no space when the string had none. With two or more fields the last one is non-empty. |
| JavaString.SplitJoin | src/RepairSystem.java:77 | Splitting fields joined by commas gives the fields back. |
| JavaString.JoinSplit | src/RepairSystem.java:77 | Joining the comma-separated fields of a string gives the string back. |
| JavaString.TrimLeftFacts | src/RepairSystem.java:88 | The leading trim removes a prefix made only of characters up to U+0020, and what remains does not start with one. |
| JavaString.TrimRightFacts | src/RepairSystem.java:88 | The trailing trim removes a suffix made only of characters up to U+0020, and what remains does not end with one. |
| JavaString.TrimLeftIdempotent | src/RepairSystem.java:88 | Trimming twice is trimming once. |
| Repair.ColumnsFacts | src/RepairSystem.java:63 | A line's fields hold no comma or space, and with two or more fields the last is non-empty. |
| Repair.MaxOf | src/RepairSystem.java:61-66 | The running `Math.max` from 0 is at least every element and is 0 or one of them. |
| Repair.MaxColumns | src/RepairSystem.java:60-67 | The widest line's field count. Every line has at most that many fields, some line has exactly that many, and a layer without lines gives 0. |
| Repair.FindMaxColumns | src/RepairSystem.java:60-67 | The loop returns `MaxColumns`. |
| Repair.DropLast | src/RepairSystem.java:89 | `substring(0, length - 1)` throws exactly on the empty string; otherwise it is the string less its last character. |
| Repair.RowResults | src/RepairSystem.java:74 | There is one row result per requested row, and none for a negative count. |
| Repair.Padded | src/RepairSystem.java:80-86 | The padding gives exactly `maxCols` fields. |
| Repair.RowFields | src/RepairSystem.java:80-88 | A repaired line has exactly `maxCols` fields. |
| Repair.NormalizeLayer | src/RepairSystem.java:70-97 | The nested loops return `Normalize`. That is either the repaired rows in order, or the exception of the first row that throws. |
| Repair.BuildRow | src/RepairSystem.java:75-94 | The body of the row loop gives row `i` of the repaired layer, either an existing line or filler. |
| Repair.AppendColumns | src/RepairSystem.java:78-86 | The column loop appends each existing field and a comma, then "00," up to `maxCols` columns; it appends nothing for `maxCols <= 0`. |
| Repair.AppendedJoin | src/RepairSystem.java:80-86 | After `n >= 1` rounds the builder holds the padded fields joined by commas plus a final comma. |
| Repair.TrimJoin | src/RepairSystem.java:88 | `trim()` on the builder acts only on the start of the first field: the final comma keeps the trailing trim from acting. |
| Repair.RowFieldsExclude | src/RepairSystem.java:77-86 | Repaired fields hold no comma, and no space when the line's fields had none. |
| Repair.RowTextShape | src/RepairSystem.java:77-89 | An existing line's repair throws exactly when `maxCols <= 0`. Otherwise it is its first `maxCols` fields in order, padded with "00" and joined by commas. |
| Repair.FillerRowShape | src/RepairSystem.java:90-93 | A missing row is repaired as a line without fields. |
| Repair.NormalizedRowFields | src/RepairSystem.java:74-94 | For `maxCols >= 1`, row `i` is repaired without exception and holds no space. It has exactly `maxCols` comma-separated fields: the line's own fields first, in order and space-stripped (the first one also trimmed at its start), then "00". A missing row is `maxCols` copies of "00". |
| Repair.NormalizedRowFails | src/RepairSystem.java:89-93 | A row throws exactly when `maxCols <= 0`. |
| Repair.CollectStaysFailed | src/RepairSystem.java:74-95 | Once a row has thrown, the repair throws. |
| Repair.CollectOk | src/RepairSystem.java:71-96 | The rows are collected exactly when none throws, one per result, in order. |
| Repair.NormalizeShape | src/RepairSystem.java:70-97 | The repair throws exactly when rows are asked for but no column is. Otherwise it has exactly `maxRows` rows, row `i` being row `i`'s repair. |
| Repair.ColumnsJoin | src/RepairSystem.java:63 | Counting fields in fields joined by commas gives the fields back, when they hold no comma or space and do not end in an empty one. |
| Repair.RowColumns | src/RepairSystem.java:77-89 | A repaired row splits back into exactly its `maxCols` fields. |
| Repair.RowTextStable | src/RepairSystem.java:77-89 | Repairing a repaired row's fields gives the same row. |
| Repair.NormalizedRowStable | src/RepairSystem.java:74-94 | A row repaired to at least its layer's width has exactly `maxCols` fields, and repairing it again gives it back. |
| Repair.SynchronizeLayers | src/RepairSystem.java:24-31 | The dimension logic returns `Synchronize`: both layers repaired to the larger row count and the larger column count, or the exception. |
| Repair.NormalizeStable | src/RepairSystem.java:30-31 | A layer repaired to at least its own width repairs to itself, and its widest line has exactly `maxCols` fields. |
| Repair.SynchronizeShape | src/RepairSystem.java:24-31 | The repair throws exactly when there are rows but no field in any line. Otherwise both layers have `max(|L1|, |L2|)` rows, and every row has `max(cols1, cols2)` fields. |
| Repair.SynchronizeIdempotent | src/RepairSystem.java:8-44 | Repairing the repaired layers changes nothing. |
| Repair.CommaOnlyLayersThrow | src/RepairSystem.java:37-43 | A layer whose only line is "," has no fields, so its repair throws. The exception is caught and neither file is written. |

## Left out

- Image loading and drawing (`ImageIO`, `BufferedImage`, `Graphics`) are not modelled. A redraw of the background is a list of `Draw` values (position and sprite); fences are modelled by their visible range and sprite index only; `paint`, `drawHitbox` and `drawTileHitbox` only paint. `drawBackMap` and `drawFences` also call `updateCamera` first (src/TileSetting.java:74, 88). Those calls are what set the camera of the fence layer that `isCollidable` reads, and that effect is modelled as `TileSettings.TileSetting.UpdateCamera`.
- The water frames are assumed loaded: the model does not model a null frame image (src/GameMap.java:132), which would make a water cell draw nothing.
- File and resource I/O is not modelled: `loadLayer`, `loadCollisionMap`, `readFile`, `writeFile` and the file checks of `synchronizeLayers`. The layers arrive as in-memory sequences of rows or lines. The optional integer parse of a layer line is not modelled either.
- The clock (`System.currentTimeMillis`) is a parameter of `GameMap.constructor`, `AdvanceWater` and `DrawMap`.
- The Swing panel, the menu, the timer, the key listener and the network server and client are not modelled. They are UI glue and threaded socket I/O. Only the Enter key rule of the panel is modelled, as `GameMap.PlaceWater`.
- Java's 32-bit `int` and 64-bit `long` wrap-around is not modelled: all arithmetic is on unbounded integers.
- TileSettings.TileSetting.constructor and TileSettings.TileSetting.ConvertToBooleanArray require at least one row, and no row longer than the first. On the constructor's own path `loadCollisionMap` always builds a rectangular `numRows × numCols` array (src/TileSetting.java:145), so these requirements always hold there. An empty file makes it throw `NegativeArraySizeException` at :145 (`new int[0][-1]`). A line longer than the first throws at :156, before conversion. Only the `IOException` fallback `new int[0][0]` (:165) reaches the `intArray[0]` read at :170 and throws there. Entered directly, `convertToBooleanArray` throws at :170 on no rows and at :173 on a row longer than the first. The `length == 0` branch of the map size (src/TileSetting.java:38-39) is modelled, but it cannot be reached under that requirement.
- Background.GameMap.constructor requires at least one row, and no row shorter than the first. The game tolerates a shorter row for as long as none of its missing cells is touched. `drawMap` reads only the visible block (src/GameMap.java:120-127), and `setTile` guards with the first row's width but writes only the cell it is given (:147-148). A short row throws only once a redraw shows one of its missing cells, or an Enter press targets one. The model does not cover a game that runs with such a row. Cells past the first row's width are never read, so the model does not keep them.
- The six-argument `hitboxData.update` call at src/Player.java:147 does not compile against the four-argument `update` of src/HitboxData.java:13. It is modelled as a no-op, because `isCollidable` overwrites the hitbox at once (src/TileSetting.java:186-187).
- The animation state is a pair (mode, direction) rather than a string. `setState` is only ever called with one of the twelve names, and `Motion.StateNameInjective` shows that comparing names is comparing states. The current image (`animations.get(state)[animationFrame]`) is not modelled.
- The player's thirteen fields are grouped into the values `Animation` and `Keys`. `handleKeyPress` is split into the methods `Latch`, `Move`, `CheckMove` and `Commit`, which run in the same order as the Java body. Likewise the inner loops of `isCollidable`, `drawMap` and `normalizeLayer` are the separate methods `ScanRow`, `DrawRow` and `AppendColumns`.
- An exception thrown by the repair (`StringIndexOutOfBoundsException` from `substring`) is the result `IndexOutOfBounds`. Such a run writes no file, so the model returns no layers.
- The resolver's own comment says that movement is allowed only when there is no collision (src/TileSetting.java:249), and `handleKeyPress` commits the position only in its `canMove` branch (src/Player.java:150-155). Yet the position was already moved at src/Player.java:135-138, so a refused move is kept. The model follows the code: `Motion.Press` and `Motion.Player.HandleKeyPress` keep the move, and `Motion.GuardedPress` is the intended behaviour (see Findings).

## Findings

| source | as written | input that shows it | evidently intended | confidence | as-written member | corrected member |
|---|---|---|---|---|---|---|
| src/Player.java:135-155 | The position moves before the collision check and is never reverted. The check's answer only decides whether its (identical) write-back is copied. | A walking player at x = 0, with no key held and the sprite within the screen height, presses Left. It ends at x = -2, off the screen, although the check refuses that position. | A refused move leaves the player where it was. | not executed | Motion.PressKeepsRefusedMove | Motion.GuardedPressAccepted |
