/** The collision resolver of the fence layer as a specification: the tile scan that
    TileSetting.IsCollidable runs, written as functions over the collision grid. */
module Collision {
  import opened Config
  import opened JavaMath

  /** An axis-aligned box in pixels. */
  datatype Box = Box(left: int, right: int, top: int, bottom: int)

  /** The player hitbox for a sprite box whose top-left pixel is (x, y): the middle half of
      the 48-pixel box. */
  function PlayerHitbox(x: int, y: int): (b: Box)
    ensures b == Box(x + 12, x + 36, y + 12, y + 36)
    ensures b.right - b.left == 24 && b.bottom - b.top == 24
  {
    Box(x + PlayerSize / 4, x + 3 * PlayerSize / 4, y + PlayerSize / 4, y + 3 * PlayerSize / 4)
  }

  /** The boundary test: the whole 48-pixel sprite box lies within the screen (not the map). */
  predicate InsideScreen(x: int, y: int, screenWidth: int, screenHeight: int) {
    !(x < 0 || x + PlayerSize > screenWidth || y < 0 || y + PlayerSize > screenHeight)
  }

  /** Screen pixel of the edge of tile `t`: tile coordinates are shifted by the camera. */
  function TilePixel(t: int, cam: int): int {
    t * TileSize - cam
  }

  /** The working state of the scan: the position being corrected and the two flags. */
  datatype Scan = Scan(x: int, y: int, vertical: bool, horizontal: bool)

  /** The hitbox meets the 32-pixel box of a tile whose top-left pixel is (px, py). */
  predicate Overlaps(hb: Box, px: int, py: int) {
    hb.right > px && hb.left < px + TileHitboxSize && hb.bottom > py && hb.top < py + TileHitboxSize
  }

  /** The tile box's top edge or its bottom edge lies strictly inside the hitbox's rows. */
  predicate PushesVertically(hb: Box, px: int, py: int) {
    Overlaps(hb, px, py) &&
    ((hb.bottom > py && hb.top < py) ||
     (hb.top < py + TileHitboxSize && hb.bottom > py + TileHitboxSize))
  }

  /** The tile box's left edge or its right edge lies strictly inside the hitbox's columns. */
  predicate PushesHorizontally(hb: Box, px: int, py: int) {
    Overlaps(hb, px, py) &&
    ((hb.right > px && hb.left < px) ||
     (hb.left < px + TileHitboxSize && hb.right > px + TileHitboxSize))
  }

  /** Where a vertical push puts the sprite: flush above the tile (its top edge minus the
      sprite size) when the top edge is crossed, otherwise flush below the tile box. */
  function VerticalTarget(hb: Box, py: int): int {
    if hb.bottom > py && hb.top < py then py - PlayerSize else py + TileHitboxSize
  }

  /** Where a horizontal push puts the sprite: flush left of the tile, otherwise flush right
      of the tile box. */
  function HorizontalTarget(hb: Box, px: int): int {
    if hb.right > px && hb.left < px then px - PlayerSize else px + TileHitboxSize
  }

  /** One blocking tile at pixel (px, py) acting on the scan, in the order the resolver tests
      it: overlap first, then the vertical edges, then the horizontal edges. */
  function Contact(hb: Box, px: int, py: int, s: Scan): (r: Scan)
    ensures r.vertical == (s.vertical || PushesVertically(hb, px, py))
    ensures r.horizontal == (s.horizontal || PushesHorizontally(hb, px, py))
    ensures r.y == if PushesVertically(hb, px, py) then VerticalTarget(hb, py) else s.y
    ensures r.x == if PushesHorizontally(hb, px, py) then HorizontalTarget(hb, px) else s.x
  {
    if !(hb.right > px && hb.left < px + TileHitboxSize &&
         hb.bottom > py && hb.top < py + TileHitboxSize) then s
    else
      var tileRight, tileBottom := px + TileHitboxSize, py + TileHitboxSize;
      var s1 :=
        if hb.bottom > py && hb.top < py then s.(y := py - PlayerSize, vertical := true)
        else if hb.top < tileBottom && hb.bottom > tileBottom then s.(y := tileBottom, vertical := true)
        else s;
      if hb.right > px && hb.left < px then s1.(x := px - PlayerSize, horizontal := true)
      else if hb.left < tileRight && hb.right > tileRight then s1.(x := tileRight, horizontal := true)
      else s1
  }

  /** The tiles the resolver looks at: the hitbox's tile range widened by one tile on each
      side, cut to the grid. */
  datatype Window = Window(colStart: int, colEnd: int, rowStart: int, rowEnd: int)

  function ScanWindow(hb: Box, rows: int, cols: int): (w: Window)
    requires hb.left >= 0 && hb.right >= 0 && hb.top >= 0 && hb.bottom >= 0
    ensures 0 <= w.colStart && w.colEnd <= cols - 1
    ensures 0 <= w.rowStart && w.rowEnd <= rows - 1
  {
    Window(Max(0, hb.left / TileSize - 1), Min(cols - 1, hb.right / TileSize + 1),
           Max(0, hb.top / TileSize - 1), Min(rows - 1, hb.bottom / TileSize + 1))
  }

  /** The collision layer as a value: a grid of `rows` by `cols` flags, true where a fence
      blocks. */
  datatype Grid = Grid(rows: int, cols: int, blocked: (int, int) -> bool)

  /** The window lies inside the grid. */
  predicate InGrid(tiles: Grid, w: Window) {
    0 <= w.colStart && w.colEnd < tiles.cols && 0 <= w.rowStart && w.rowEnd < tiles.rows
  }

  /** Tile (row, col) is blocking and pushes the hitbox vertically, or horizontally. */
  predicate BlocksVertically(tiles: Grid, hb: Box, camX: int, camY: int, row: int, col: int)
    requires 0 <= row < tiles.rows && 0 <= col < tiles.cols
  {
    tiles.blocked(row, col) && PushesVertically(hb, TilePixel(col, camX), TilePixel(row, camY))
  }

  predicate BlocksHorizontally(tiles: Grid, hb: Box, camX: int, camY: int, row: int, col: int)
    requires 0 <= row < tiles.rows && 0 <= col < tiles.cols
  {
    tiles.blocked(row, col) && PushesHorizontally(hb, TilePixel(col, camX), TilePixel(row, camY))
  }

  /** The scan after the columns [c0, c) of row `row`. */
  function ScanCols(tiles: Grid, hb: Box, camX: int, camY: int,
                    row: int, c0: int, c: int, s: Scan): Scan
    requires 0 <= row < tiles.rows
    requires 0 <= c0 <= c && (c0 < c ==> c <= tiles.cols)
    decreases c - c0
  {
    if c == c0 then s
    else
      var prev := ScanCols(tiles, hb, camX, camY, row, c0, c - 1, s);
      if tiles.blocked(row, c - 1) then Contact(hb, TilePixel(c - 1, camX), TilePixel(row, camY), prev)
      else prev
  }

  /** The scan after the rows [w.rowStart, r) of the window, each row left to right. */
  function ScanRows(tiles: Grid, hb: Box, camX: int, camY: int, w: Window, r: int, s: Scan): Scan
    requires InGrid(tiles, w)
    requires w.rowStart <= r <= Stop(w.rowStart, w.rowEnd)
    decreases r - w.rowStart
  {
    if r == w.rowStart then s
    else
      ScanCols(tiles, hb, camX, camY, r - 1, w.colStart, Stop(w.colStart, w.colEnd),
               ScanRows(tiles, hb, camX, camY, w, r - 1, s))
  }

  /** What the resolver answers and writes back into `position[]`. */
  datatype Outcome = Outcome(canMove: bool, x: int, y: int)

  /** The whole resolver: off-screen positions are refused untouched; otherwise the window is
      scanned row by row from a clean state and any collision refuses the move. */
  function Resolve(tiles: Grid, camX: int, camY: int, screenWidth: int, screenHeight: int,
                   x: int, y: int): Outcome
  {
    if !InsideScreen(x, y, screenWidth, screenHeight) then Outcome(false, x, y)
    else
      var hb := PlayerHitbox(x, y);
      var w := ScanWindow(hb, tiles.rows, tiles.cols);
      var s := ScanRows(tiles, hb, camX, camY, w, Stop(w.rowStart, w.rowEnd), Scan(x, y, false, false));
      Outcome(!(s.vertical || s.horizontal), s.x, s.y)
  }

  /** Scanning part of a row: a flag ends up set exactly when it was set before or some tile
      of the part pushes on that axis; a coordinate is either untouched or the push target of
      some tile of the part, and a flag that was off and ends up on came with such a target. */
  lemma {:induction false} ScanColsFacts(tiles: Grid, hb: Box, camX: int, camY: int,
                                         row: int, c0: int, c: int, s: Scan)
    requires 0 <= row < tiles.rows
    requires 0 <= c0 <= c && (c0 < c ==> c <= tiles.cols)
    ensures var r := ScanCols(tiles, hb, camX, camY, row, c0, c, s);
      && (r.vertical <==> (s.vertical ||
            exists col :: c0 <= col < c && BlocksVertically(tiles, hb, camX, camY, row, col)))
      && (r.horizontal <==> (s.horizontal ||
            exists col :: c0 <= col < c && BlocksHorizontally(tiles, hb, camX, camY, row, col)))
      && (!r.vertical ==> r.y == s.y)
      && (!r.horizontal ==> r.x == s.x)
      && ((r.y == s.y && !(r.vertical && !s.vertical)) ||
            exists col :: c0 <= col < c && BlocksVertically(tiles, hb, camX, camY, row, col) &&
                          r.y == VerticalTarget(hb, TilePixel(row, camY)))
      && ((r.x == s.x && !(r.horizontal && !s.horizontal)) ||
            exists col :: c0 <= col < c && BlocksHorizontally(tiles, hb, camX, camY, row, col) &&
                          r.x == HorizontalTarget(hb, TilePixel(col, camX)))
  {
    if c > c0 {
      var k := c - 1;
      ScanColsFacts(tiles, hb, camX, camY, row, c0, k, s);
      var prev := ScanCols(tiles, hb, camX, camY, row, c0, k, s);
      var r := ScanCols(tiles, hb, camX, camY, row, c0, c, s);
      var bv := BlocksVertically(tiles, hb, camX, camY, row, k);
      var bh := BlocksHorizontally(tiles, hb, camX, camY, row, k);
      assert r.vertical == (prev.vertical || bv) && r.horizontal == (prev.horizontal || bh);
      assert r.y == (if bv then VerticalTarget(hb, TilePixel(row, camY)) else prev.y);
      assert r.x == (if bh then HorizontalTarget(hb, TilePixel(k, camX)) else prev.x);
      assert (exists col :: c0 <= col < c && BlocksVertically(tiles, hb, camX, camY, row, col)) <==>
             (exists col :: c0 <= col < k && BlocksVertically(tiles, hb, camX, camY, row, col)) || bv;
      assert (exists col :: c0 <= col < c && BlocksHorizontally(tiles, hb, camX, camY, row, col)) <==>
             (exists col :: c0 <= col < k && BlocksHorizontally(tiles, hb, camX, camY, row, col)) || bh;
    }
  }

  /** Tile (row, col) belongs to the window and lies in one of its rows before `r`. */
  predicate Visited(w: Window, r: int, row: int, col: int) {
    w.rowStart <= row < r && w.colStart <= col <= w.colEnd
  }

  /** ScanColsFacts lifted to whole rows of the window. */
  lemma {:induction false} ScanRowsFacts(tiles: Grid, hb: Box, camX: int, camY: int,
                                         w: Window, r: int, s: Scan)
    requires InGrid(tiles, w)
    requires w.rowStart <= r <= Stop(w.rowStart, w.rowEnd)
    ensures var t := ScanRows(tiles, hb, camX, camY, w, r, s);
      && (t.vertical <==> (s.vertical ||
            exists row, col :: Visited(w, r, row, col) && BlocksVertically(tiles, hb, camX, camY, row, col)))
      && (t.horizontal <==> (s.horizontal ||
            exists row, col :: Visited(w, r, row, col) && BlocksHorizontally(tiles, hb, camX, camY, row, col)))
      && (!t.vertical ==> t.y == s.y)
      && (!t.horizontal ==> t.x == s.x)
      && ((t.y == s.y && !(t.vertical && !s.vertical)) ||
            exists row, col :: Visited(w, r, row, col) && BlocksVertically(tiles, hb, camX, camY, row, col) &&
                               t.y == VerticalTarget(hb, TilePixel(row, camY)))
      && ((t.x == s.x && !(t.horizontal && !s.horizontal)) ||
            exists row, col :: Visited(w, r, row, col) && BlocksHorizontally(tiles, hb, camX, camY, row, col) &&
                               t.x == HorizontalTarget(hb, TilePixel(col, camX)))
  {
    if r > w.rowStart {
      var k := r - 1;
      var stop := Stop(w.colStart, w.colEnd);
      ScanRowsFacts(tiles, hb, camX, camY, w, k, s);
      var m := ScanRows(tiles, hb, camX, camY, w, k, s);
      ScanColsFacts(tiles, hb, camX, camY, k, w.colStart, stop, m);
      var t := ScanRows(tiles, hb, camX, camY, w, r, s);
      assert t == ScanCols(tiles, hb, camX, camY, k, w.colStart, stop, m);
      assert forall row, col :: Visited(w, r, row, col) <==> Visited(w, k, row, col) || (row == k && w.colStart <= col < stop);
      if t.vertical && !(m.vertical) {
        var col :| w.colStart <= col < stop && BlocksVertically(tiles, hb, camX, camY, k, col) &&
                   t.y == VerticalTarget(hb, TilePixel(k, camY));
        assert Visited(w, r, k, col);
      }
      if t.horizontal && !(m.horizontal) {
        var col :| w.colStart <= col < stop && BlocksHorizontally(tiles, hb, camX, camY, k, col) &&
                   t.x == HorizontalTarget(hb, TilePixel(col, camX));
        assert Visited(w, r, k, col);
      }
    }
  }

  /** Tile (row, col) lies in the window the resolver scans for a sprite at (x, y). */
  predicate InScanWindow(tiles: Grid, x: int, y: int, row: int, col: int)
    requires x >= 0 && y >= 0
  {
    var w := ScanWindow(PlayerHitbox(x, y), tiles.rows, tiles.cols);
    w.rowStart <= row <= w.rowEnd && w.colStart <= col <= w.colEnd
  }

  /** The move is refused exactly when the sprite box leaves the screen or some blocking tile
      of the window pushes the hitbox on either axis. */
  lemma ResolveRefusesIff(tiles: Grid, camX: int, camY: int, screenWidth: int, screenHeight: int,
                          x: int, y: int)
    ensures !Resolve(tiles, camX, camY, screenWidth, screenHeight, x, y).canMove <==>
      (!InsideScreen(x, y, screenWidth, screenHeight) ||
       exists row, col :: InScanWindow(tiles, x, y, row, col) &&
         (BlocksVertically(tiles, PlayerHitbox(x, y), camX, camY, row, col) ||
          BlocksHorizontally(tiles, PlayerHitbox(x, y), camX, camY, row, col)))
  {
    if InsideScreen(x, y, screenWidth, screenHeight) {
      var hb := PlayerHitbox(x, y);
      var w := ScanWindow(hb, tiles.rows, tiles.cols);
      var r := Stop(w.rowStart, w.rowEnd);
      ScanRowsFacts(tiles, hb, camX, camY, w, r, Scan(x, y, false, false));
      assert forall row, col :: Visited(w, r, row, col) <==> InScanWindow(tiles, x, y, row, col);
    }
  }

  /** A move that is allowed writes the position back unchanged. */
  lemma ResolveAllowedKeepsPosition(tiles: Grid, camX: int, camY: int,
                                    screenWidth: int, screenHeight: int, x: int, y: int)
    ensures var o := Resolve(tiles, camX, camY, screenWidth, screenHeight, x, y);
      o.canMove ==> o.x == x && o.y == y
  {
    if InsideScreen(x, y, screenWidth, screenHeight) {
      var hb := PlayerHitbox(x, y);
      var w := ScanWindow(hb, tiles.rows, tiles.cols);
      ScanRowsFacts(tiles, hb, camX, camY, w, Stop(w.rowStart, w.rowEnd), Scan(x, y, false, false));
    }
  }

  /** Every corrected coordinate is flush against an edge of some blocking tile of the window
      that pushes on that axis; a coordinate no tile pushes is written back unchanged. */
  lemma ResolvePushTargets(tiles: Grid, camX: int, camY: int,
                           screenWidth: int, screenHeight: int, x: int, y: int)
    ensures var o := Resolve(tiles, camX, camY, screenWidth, screenHeight, x, y);
      && (o.y == y ||
          (InsideScreen(x, y, screenWidth, screenHeight) &&
           exists row, col :: InScanWindow(tiles, x, y, row, col) &&
             BlocksVertically(tiles, PlayerHitbox(x, y), camX, camY, row, col) &&
             o.y == VerticalTarget(PlayerHitbox(x, y), TilePixel(row, camY))))
      && (o.x == x ||
          (InsideScreen(x, y, screenWidth, screenHeight) &&
           exists row, col :: InScanWindow(tiles, x, y, row, col) &&
             BlocksHorizontally(tiles, PlayerHitbox(x, y), camX, camY, row, col) &&
             o.x == HorizontalTarget(PlayerHitbox(x, y), TilePixel(col, camX))))
  {
    if InsideScreen(x, y, screenWidth, screenHeight) {
      var hb := PlayerHitbox(x, y);
      var w := ScanWindow(hb, tiles.rows, tiles.cols);
      var r := Stop(w.rowStart, w.rowEnd);
      ScanRowsFacts(tiles, hb, camX, camY, w, r, Scan(x, y, false, false));
      assert forall row, col :: Visited(w, r, row, col) <==> InScanWindow(tiles, x, y, row, col);
    }
  }

  /** With a single blocking tile in the window, the resolver does exactly what that tile's
      contact does: for a tile whose top edge lies strictly inside the hitbox's rows (a tile
      just below), the sprite lands at the top edge minus the sprite size and the move is
      refused. */
  lemma ResolveLoneTile(tiles: Grid, camX: int, camY: int,
                        screenWidth: int, screenHeight: int, x: int, y: int, r0: int, c0: int)
    requires InsideScreen(x, y, screenWidth, screenHeight)
    requires InScanWindow(tiles, x, y, r0, c0) && tiles.blocked(r0, c0)
    requires forall row, col :: InScanWindow(tiles, x, y, row, col) && tiles.blocked(row, col) ==>
      row == r0 && col == c0
    ensures var o := Resolve(tiles, camX, camY, screenWidth, screenHeight, x, y);
      var hb, px, py := PlayerHitbox(x, y), TilePixel(c0, camX), TilePixel(r0, camY);
      && o.canMove == !(PushesVertically(hb, px, py) || PushesHorizontally(hb, px, py))
      && o.y == (if PushesVertically(hb, px, py) then VerticalTarget(hb, py) else y)
      && o.x == (if PushesHorizontally(hb, px, py) then HorizontalTarget(hb, px) else x)
      && (hb.top < py < hb.bottom && hb.right > px && hb.left < px + TileHitboxSize ==>
            !o.canMove && o.y == py - PlayerSize)
  {
    var hb := PlayerHitbox(x, y);
    var w := ScanWindow(hb, tiles.rows, tiles.cols);
    var r := Stop(w.rowStart, w.rowEnd);
    ScanRowsFacts(tiles, hb, camX, camY, w, r, Scan(x, y, false, false));
    assert forall row, col :: Visited(w, r, row, col) <==> InScanWindow(tiles, x, y, row, col);
    assert Visited(w, r, r0, c0);
  }
}
