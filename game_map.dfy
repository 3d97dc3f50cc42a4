/** The background layer: the terrain grid, its camera, the water animation clock, the choice
    of sprite per cell, and in-place tile edits. */
module Background {
  import opened Config
  import opened JavaMath
  import Viewport

  /** What is drawn for one background cell: the current water frame, one of the static tile
      sheets, or nothing. */
  datatype Sprite = Animated(frame: int) | Static(sheet: int) | Nothing

  /** The sprite for tile code `code`: the water animation for an animated code, the sheet of
      that index for a code below the number of sheets, nothing otherwise. */
  function TileVariant(code: int, waterFrame: int): (s: Sprite)
    ensures s.Animated? <==> code in AnimatedTiles
    ensures s.Static? <==> code !in AnimatedTiles && 0 <= code < StaticSheetCount
    ensures s.Animated? ==> s.frame == waterFrame
    ensures s.Static? ==> s.sheet == code
  {
    if code in AnimatedTiles then Animated(waterFrame)
    else if 0 <= code < StaticSheetCount then Static(code)
    else Nothing
  }

  /** The codes of the game's maps: 0 is land, 1 grass, 12 water; every other code is not
      drawn. */
  lemma TileVariantCodes(code: int, waterFrame: int)
    ensures TileVariant(0, waterFrame) == Static(0)
    ensures TileVariant(1, waterFrame) == Static(1)
    ensures TileVariant(WaterId, waterFrame) == Animated(waterFrame)
    ensures code != 0 && code != 1 && code != WaterId ==> TileVariant(code, waterFrame) == Nothing
  {
  }

  /** The water animation clock: the current frame and when it was last advanced (ms). */
  datatype WaterClock = WaterClock(frame: int, lastFrameTime: int)

  /** The clock at time `now`: once a frame has been shown for the frame duration, the next
      frame (cyclically) is shown from `now` on; before that nothing changes. */
  function Water(c: WaterClock, now: int): (r: WaterClock)
    ensures now - c.lastFrameTime >= WaterFrameDurationMs ==>
      r.lastFrameTime == now && (0 <= c.frame ==> r.frame == (c.frame + 1) % WaterFrames)
    ensures now - c.lastFrameTime < WaterFrameDurationMs ==> r == c
    ensures 0 <= c.frame < WaterFrames ==> 0 <= r.frame < WaterFrames
  {
    if now - c.lastFrameTime >= WaterFrameDurationMs then
      WaterClock(Rem(c.frame + 1, WaterFrames), now)
    else c
  }

  /** Four frame changes bring the water back to the frame it started from. */
  lemma WaterCycle(c: WaterClock, t1: int, t2: int, t3: int, t4: int)
    requires 0 <= c.frame < WaterFrames
    requires t1 - c.lastFrameTime >= WaterFrameDurationMs
    requires t2 - t1 >= WaterFrameDurationMs && t3 - t2 >= WaterFrameDurationMs
    requires t4 - t3 >= WaterFrameDurationMs
    ensures var c1 := Water(c, t1); var c2 := Water(c1, t2); var c3 := Water(c2, t3);
      && c1.frame != c.frame && c2.frame != c.frame && c3.frame != c.frame
      && Water(c3, t4) == WaterClock(c.frame, t4)
  {
  }

  /** One draw call: a sprite at a screen pixel. */
  datatype Draw = Draw(x: int, y: int, sprite: Sprite)

  /** The background layer object. The layer keeps the width of its first row: the code never
      reads or writes a cell beyond it. */
  class GameMap {
    const backgroundLayer: array2<int>
    var camX: int
    var camY: int
    const screenWidth: int
    const screenHeight: int
    const mapWidth: int
    const mapHeight: int
    var currentWaterFrame: int
    var lastFrameTime: int

    ghost predicate Valid()
      reads this
    {
      && screenWidth >= 0 && screenHeight >= 0
      && backgroundLayer.Length0 > 0
      && mapWidth == backgroundLayer.Length1 * TileSize
      && mapHeight == backgroundLayer.Length0 * TileSize
      && 0 <= camX <= Max(0, mapWidth - screenWidth)
      && 0 <= camY <= Max(0, mapHeight - screenHeight)
      && 0 <= currentWaterFrame < WaterFrames
    }

    /** The water clock as one value. */
    function Clock(): WaterClock
      reads this
    {
      WaterClock(currentWaterFrame, lastFrameTime)
    }

    /** A map over the loaded layer; `now` is the clock reading at construction. A layer
        needs a first row (its width is the map's), and no row may be shorter than it. */
    constructor (layer: seq<seq<int>>, screenWidth: int, screenHeight: int, now: int)
      requires |layer| > 0
      requires forall r :: 0 <= r < |layer| ==> |layer[r]| >= |layer[0]|
      requires screenWidth >= 0 && screenHeight >= 0
      ensures Valid() && fresh(backgroundLayer)
      ensures backgroundLayer.Length0 == |layer| && backgroundLayer.Length1 == |layer[0]|
      ensures forall r, c :: 0 <= r < |layer| && 0 <= c < |layer[0]| ==>
        backgroundLayer[r, c] == layer[r][c]
      ensures this.screenWidth == screenWidth && this.screenHeight == screenHeight
      ensures camX == 0 && camY == 0 && Clock() == WaterClock(0, now)
    {
      backgroundLayer := new int[|layer|, |layer[0]|]((r, c) =>
        if 0 <= r < |layer| && 0 <= c < |layer[r]| then layer[r][c] else 0);
      this.screenWidth := screenWidth;
      this.screenHeight := screenHeight;
      mapWidth := |layer[0]| * TileSize;
      mapHeight := |layer| * TileSize;
      camX, camY := 0, 0;
      currentWaterFrame := 0;
      lastFrameTime := now;
    }

    /** The camera centred on the player, clamped to the map; the old camera is ignored. */
    method UpdateCamera(playerX: int, playerY: int)
      requires Valid()
      modifies this`camX, this`camY
      ensures Valid()
      ensures camX == Viewport.Offset(playerX, screenWidth, mapWidth)
      ensures camY == Viewport.Offset(playerY, screenHeight, mapHeight)
    {
      camX := camX + (playerX - screenWidth / 2 - camX);
      camY := camY + (playerY - screenHeight / 2 - camY);
      camX := Max(0, Min(camX, mapWidth - screenWidth));
      camY := Max(0, Min(camY, mapHeight - screenHeight));
    }

    /** The water frame advance of a redraw at time `currentTime`. */
    method AdvanceWater(currentTime: int)
      requires Valid()
      modifies this`currentWaterFrame, this`lastFrameTime
      ensures Valid()
      ensures Clock() == Water(old(Clock()), currentTime)
    {
      if currentTime - lastFrameTime >= WaterFrameDurationMs {
        currentWaterFrame := Rem(currentWaterFrame + 1, WaterFrames);
        lastFrameTime := currentTime;
      }
    }

    /** The block of tiles a redraw visits. */
    function VisibleTiles(): (v: Viewport.TileRange)
      requires Valid()
      reads this
      ensures 0 <= v.cols.first <= backgroundLayer.Length1 && v.cols.last < backgroundLayer.Length1
      ensures 0 <= v.rows.first <= backgroundLayer.Length0 && v.rows.last < backgroundLayer.Length0
    {
      Viewport.VisibleRange(camX, camY, screenWidth, screenHeight,
                            backgroundLayer.Length0, backgroundLayer.Length1)
    }

    /** The draw for cell (row, col), if its code has a sprite. */
    function CellDraws(row: int, col: int): (ds: seq<Draw>)
      requires 0 <= row < backgroundLayer.Length0 && 0 <= col < backgroundLayer.Length1
      reads this, backgroundLayer
      ensures |ds| <= 1
      ensures forall d :: d in ds ==> !d.sprite.Nothing?
    {
      var sprite := TileVariant(backgroundLayer[row, col], currentWaterFrame);
      if sprite.Nothing? then [] else [Draw(col * TileSize - camX, row * TileSize - camY, sprite)]
    }

    /** The draws for columns [c0, c) of row `row`, left to right. */
    function RowDraws(row: int, c0: int, c: int): seq<Draw>
      requires 0 <= row < backgroundLayer.Length0 && 0 <= c0 <= c <= backgroundLayer.Length1
      reads this, backgroundLayer
      decreases c - c0
    {
      if c == c0 then [] else RowDraws(row, c0, c - 1) + CellDraws(row, c - 1)
    }

    /** The draws for rows [r0, r), top to bottom, each over columns [c0, c1). */
    function BlockDraws(r0: int, r: int, c0: int, c1: int): seq<Draw>
      requires 0 <= r0 <= r <= backgroundLayer.Length0 && 0 <= c0 <= c1 <= backgroundLayer.Length1
      reads this, backgroundLayer
      decreases r - r0
    {
      if r == r0 then [] else BlockDraws(r0, r - 1, c0, c1) + RowDraws(r - 1, c0, c1)
    }

    /** Everything one redraw draws, for the current camera and water frame. */
    function VisibleDraws(): seq<Draw>
      requires Valid()
      reads this, backgroundLayer
    {
      var v := VisibleTiles();
      BlockDraws(v.rows.first, Stop(v.rows.first, v.rows.last),
                 v.cols.first, Stop(v.cols.first, v.cols.last))
    }

    lemma {:induction false} RowDrawsExact(row: int, c0: int, c: int, d: Draw)
      requires 0 <= row < backgroundLayer.Length0 && 0 <= c0 <= c <= backgroundLayer.Length1
      ensures d in RowDraws(row, c0, c) <==> exists col :: c0 <= col < c && d in CellDraws(row, col)
      decreases c - c0
    {
      if c > c0 {
        RowDrawsExact(row, c0, c - 1, d);
      }
    }

    lemma {:induction false} BlockDrawsExact(r0: int, r: int, c0: int, c1: int, d: Draw)
      requires 0 <= r0 <= r <= backgroundLayer.Length0 && 0 <= c0 <= c1 <= backgroundLayer.Length1
      ensures d in BlockDraws(r0, r, c0, c1) <==>
        exists row, col :: r0 <= row < r && c0 <= col < c1 && d in CellDraws(row, col)
      decreases r - r0
    {
      if r > r0 {
        BlockDrawsExact(r0, r - 1, c0, c1, d);
        RowDrawsExact(r - 1, c0, c1, d);
      }
    }

    /** A redraw draws exactly the visible cells whose code has a sprite, each at its screen
        position with that sprite. */
    lemma VisibleDrawsExact(d: Draw)
      requires Valid()
      ensures var v := VisibleTiles();
        d in VisibleDraws() <==>
        exists row, col :: v.rows.first <= row <= v.rows.last && v.cols.first <= col <= v.cols.last &&
          d.x == col * TileSize - camX && d.y == row * TileSize - camY &&
          d.sprite == TileVariant(backgroundLayer[row, col], currentWaterFrame) &&
          !d.sprite.Nothing?
    {
      var v := VisibleTiles();
      BlockDrawsExact(v.rows.first, Stop(v.rows.first, v.rows.last),
                      v.cols.first, Stop(v.cols.first, v.cols.last), d);
      if d in VisibleDraws() {
        var row, col :| v.rows.first <= row < Stop(v.rows.first, v.rows.last) &&
          v.cols.first <= col < Stop(v.cols.first, v.cols.last) && d in CellDraws(row, col);
        assert CellDraws(row, col) == [d];
      }
      if exists row, col :: v.rows.first <= row <= v.rows.last && v.cols.first <= col <= v.cols.last &&
          d.x == col * TileSize - camX && d.y == row * TileSize - camY &&
          d.sprite == TileVariant(backgroundLayer[row, col], currentWaterFrame) &&
          !d.sprite.Nothing? {
        var row, col :| v.rows.first <= row <= v.rows.last && v.cols.first <= col <= v.cols.last &&
          d.x == col * TileSize - camX && d.y == row * TileSize - camY &&
          d.sprite == TileVariant(backgroundLayer[row, col], currentWaterFrame) &&
          !d.sprite.Nothing?;
        assert d in CellDraws(row, col);
      }
    }

    /** A redraw at time `currentTime` for a player at (playerX, playerY): the camera follows
        the player, the water clock advances, and the visible cells are drawn row by row. */
    method DrawMap(playerX: int, playerY: int, currentTime: int) returns (draws: seq<Draw>)
      requires Valid()
      modifies this`camX, this`camY, this`currentWaterFrame, this`lastFrameTime
      ensures Valid()
      ensures camX == Viewport.Offset(playerX, screenWidth, mapWidth)
      ensures camY == Viewport.Offset(playerY, screenHeight, mapHeight)
      ensures Clock() == Water(old(Clock()), currentTime)
      ensures draws == VisibleDraws()
    {
      UpdateCamera(playerX, playerY);
      AdvanceWater(currentTime);
      draws := DrawVisible();
    }

    /** The tile loops of a redraw, for the camera and water frame already updated. */
    method DrawVisible() returns (draws: seq<Draw>)
      requires Valid()
      ensures draws == VisibleDraws()
    {
      var startTileX := Max(0, camX / TileSize);
      var startTileY := Max(0, camY / TileSize);
      var endTileX := Min((camX + screenWidth) / TileSize, backgroundLayer.Length1 - 1);
      var endTileY := Min((camY + screenHeight) / TileSize, backgroundLayer.Length0 - 1);
      ghost var v := VisibleTiles();
      assert v == Viewport.TileRange(Viewport.Span(startTileX, endTileX), Viewport.Span(startTileY, endTileY));
      ghost var colStop := Stop(startTileX, endTileX);

      draws := [];
      var row := startTileY;
      while row <= endTileY
        invariant startTileY <= row <= Stop(startTileY, endTileY)
        invariant draws == BlockDraws(startTileY, row, startTileX, colStop)
      {
        var rowDraws := DrawRow(row, startTileX, endTileX);
        draws := draws + rowDraws;
        row := row + 1;
      }
    }

    /** The inner loop of a redraw: the cells of one row from tileXStart to tileXEnd. */
    method DrawRow(row: int, tileXStart: int, tileXEnd: int) returns (draws: seq<Draw>)
      requires 0 <= row < backgroundLayer.Length0
      requires 0 <= tileXStart <= backgroundLayer.Length1 && tileXEnd < backgroundLayer.Length1
      ensures draws == RowDraws(row, tileXStart, Stop(tileXStart, tileXEnd))
    {
      draws := [];
      var col := tileXStart;
      while col <= tileXEnd
        invariant tileXStart <= col <= Stop(tileXStart, tileXEnd)
        invariant draws == RowDraws(row, tileXStart, col)
      {
        var tileType := backgroundLayer[row, col];
        var tileX := col * TileSize - camX;
        var tileY := row * TileSize - camY;
        if tileType in AnimatedTiles {
          draws := draws + [Draw(tileX, tileY, Animated(currentWaterFrame))];
        } else if tileType >= 0 && tileType < StaticSheetCount {
          draws := draws + [Draw(tileX, tileY, Static(tileType))];
        }
        col := col + 1;
      }
    }

    /** Writes tile `tileId` into column x of row y when both are inside the map; any other
        call changes nothing. */
    method SetTile(x: int, y: int, tileId: int)
      modifies backgroundLayer
      ensures 0 <= x < backgroundLayer.Length1 && 0 <= y < backgroundLayer.Length0 ==>
        backgroundLayer[y, x] == tileId
      ensures forall r, c ::
        0 <= r < backgroundLayer.Length0 && 0 <= c < backgroundLayer.Length1 && (r != y || c != x) ==>
          backgroundLayer[r, c] == old(backgroundLayer[r, c])
    {
      if x >= 0 && x < backgroundLayer.Length1 && y >= 0 && y < backgroundLayer.Length0 {
        backgroundLayer[y, x] := tileId;
      }
    }

    /** The number of rows of the layer. */
    function BgMapSize(): (n: int)
      requires Valid()
      reads this
      ensures n > 0 && n * TileSize == mapHeight
    {
      backgroundLayer.Length0
    }

    /** The Enter key of the game panel: water is placed on the tile under the player's
        top-left pixel, found with Java's truncating division. */
    method PlaceWater(playerX: int, playerY: int)
      modifies backgroundLayer
      ensures var tx, ty := Div(playerX, TileSize), Div(playerY, TileSize);
        && (0 <= tx < backgroundLayer.Length1 && 0 <= ty < backgroundLayer.Length0 ==>
              backgroundLayer[ty, tx] == WaterId)
        && forall r, c ::
             0 <= r < backgroundLayer.Length0 && 0 <= c < backgroundLayer.Length1 && (r != ty || c != tx) ==>
               backgroundLayer[r, c] == old(backgroundLayer[r, c])
    {
      var playerTileX := Div(playerX, TileSize);
      var playerTileY := Div(playerY, TileSize);
      SetTile(playerTileX, playerTileY, WaterId);
    }
  }

  /** Java truncates: a player up to 47 pixels left of the map edge still places water in
      column 0, although the floor of its tile column is -1. */
  lemma PlaceWaterTruncates(playerX: int)
    requires -TileSize < playerX < 0
    ensures Div(playerX, TileSize) == 0 && playerX / TileSize == -1
  {
  }
}
