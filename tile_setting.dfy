/** The fence layer: the collision grid, fence autotiling, its camera and the collision
    resolver the player calls. */
module TileSettings {
  import opened Config
  import opened JavaMath
  import Viewport
  import opened Collision
  import opened Hitbox

  /** Which orthogonal neighbours of a fence tile are fences too. */
  datatype Neighbours = Neighbours(top: bool, bottom: bool, left: bool, right: bool)

  /** The fence sprite for a neighbour pattern, in the order the autotiler checks the patterns. */
  function FenceIndex(n: Neighbours): (i: int)
    ensures 0 <= i < FenceSpriteCount
  {
    var Neighbours(top, bottom, left, right) := n;
    if top && bottom && left && right then 4
    else if top && bottom && left then 5
    else if top && bottom && right then 3
    else if left && bottom && right then 1
    else if top && left && right then 7
    else if top && left then 8
    else if top && right then 6
    else if left && right then 13
    else if bottom && left then 2
    else if bottom && top then 10
    else if bottom && right then 0
    else if top then 11
    else if bottom then 9
    else if left then 14
    else if right then 12
    else 15
  }

  /** The neighbour pattern each fence sprite stands for: the inverse of FenceIndex. */
  function FencePattern(i: int): (n: Neighbours)
    requires 0 <= i < FenceSpriteCount
  {
    match i
    case 0 => Neighbours(false, true, false, true)
    case 1 => Neighbours(false, true, true, true)
    case 2 => Neighbours(false, true, true, false)
    case 3 => Neighbours(true, true, false, true)
    case 4 => Neighbours(true, true, true, true)
    case 5 => Neighbours(true, true, true, false)
    case 6 => Neighbours(true, false, false, true)
    case 7 => Neighbours(true, false, true, true)
    case 8 => Neighbours(true, false, true, false)
    case 9 => Neighbours(false, true, false, false)
    case 10 => Neighbours(true, true, false, false)
    case 11 => Neighbours(true, false, false, false)
    case 12 => Neighbours(false, false, false, true)
    case 13 => Neighbours(false, false, true, true)
    case 14 => Neighbours(false, false, true, false)
    case _ => Neighbours(false, false, false, false)
  }

  /** The 16 neighbour patterns get 16 different sprites: FenceIndex is one-to-one... */
  lemma FenceIndexInjective(n: Neighbours)
    ensures FencePattern(FenceIndex(n)) == n
  {
  }

  /** ...and onto 0..15, with all four neighbours giving sprite 4 and none giving sprite 15. */
  lemma FenceIndexOnto(i: int)
    requires 0 <= i < FenceSpriteCount
    ensures FenceIndex(FencePattern(i)) == i
    ensures FenceIndex(Neighbours(true, true, true, true)) == 4
    ensures FenceIndex(Neighbours(false, false, false, false)) == 15
  {
  }

  class TileSetting {
    var camX: int
    var camY: int
    const screenWidth: int
    const screenHeight: int
    const mapWidth: int
    const mapHeight: int
    const collidableTiles: array2<bool>
    /** The collision layer as a value, for the resolver's specification. */
    ghost const grid: Grid

    /** Screen sizes are non-negative, so every division below has non-negative operands and
        Java's truncating `/` agrees with Dafny's; the map has at least one row. */
    ghost predicate Sized()
      reads this
    {
      && screenWidth >= 0 && screenHeight >= 0
      && collidableTiles.Length0 > 0
      && mapWidth == TileSize * collidableTiles.Length1
      && mapHeight == TileSize * collidableTiles.Length0
    }

    /** Besides, `grid` holds the array's flags. */
    ghost predicate Valid()
      reads this, collidableTiles
    {
      && Sized()
      && grid.rows == collidableTiles.Length0 && grid.cols == collidableTiles.Length1
      && forall r, c :: 0 <= r < collidableTiles.Length0 && 0 <= c < collidableTiles.Length1 ==>
           collidableTiles[r, c] == grid.blocked(r, c)
    }

    /** Builds the fence layer over an already loaded collision layer. */
    constructor (screenWidth: int, screenHeight: int, collisionMap: seq<seq<int>>)
      requires screenWidth >= 0 && screenHeight >= 0
      requires |collisionMap| > 0
      requires forall r :: 0 <= r < |collisionMap| ==> |collisionMap[r]| <= |collisionMap[0]|
      ensures Valid() && fresh(collidableTiles)
      ensures this.screenWidth == screenWidth && this.screenHeight == screenHeight
      ensures camX == 0 && camY == 0
      ensures collidableTiles.Length0 == |collisionMap| && collidableTiles.Length1 == |collisionMap[0]|
      ensures forall r, c :: 0 <= r < |collisionMap| && 0 <= c < |collisionMap[0]| ==>
        collidableTiles[r, c] == (c < |collisionMap[r]| && collisionMap[r][c] != 0)
    {
      this.screenWidth := screenWidth;
      this.screenHeight := screenHeight;
      var tiles := ConvertToBooleanArray(collisionMap);
      collidableTiles := tiles;
      grid := Grid(|collisionMap|, |collisionMap[0]|,
                   (r, c) => 0 <= r < |collisionMap| && 0 <= c < |collisionMap[r]| && collisionMap[r][c] != 0);
      mapWidth := TileSize * (if tiles.Length0 == 0 then 1 else tiles.Length1);
      mapHeight := TileSize * (if tiles.Length0 == 0 then 1 else tiles.Length0);
      camX, camY := 0, 0;
    }

    /** A cell is blocking when its code is non-zero; a row shorter than the first row leaves
        its missing cells open. */
    static method ConvertToBooleanArray(intArray: seq<seq<int>>) returns (booleanArray: array2<bool>)
      requires |intArray| > 0
      requires forall r :: 0 <= r < |intArray| ==> |intArray[r]| <= |intArray[0]|
      ensures fresh(booleanArray)
      ensures booleanArray.Length0 == |intArray| && booleanArray.Length1 == |intArray[0]|
      ensures forall r, c :: 0 <= r < |intArray| && 0 <= c < |intArray[0]| ==>
        booleanArray[r, c] == (c < |intArray[r]| && intArray[r][c] != 0)
    {
      booleanArray := new bool[|intArray|, |intArray[0]|]((r, c) => false);
      var row := 0;
      while row < |intArray|
        invariant 0 <= row <= |intArray|
        invariant forall r, c :: 0 <= r < |intArray| && 0 <= c < |intArray[0]| ==>
          booleanArray[r, c] == (r < row && c < |intArray[r]| && intArray[r][c] != 0)
      {
        var col := 0;
        while col < |intArray[row]|
          invariant 0 <= col <= |intArray[row]|
          invariant forall r, c :: 0 <= r < |intArray| && 0 <= c < |intArray[0]| ==>
            booleanArray[r, c] ==
              ((r < row || (r == row && c < col)) && c < |intArray[r]| && intArray[r][c] != 0)
        {
          booleanArray[row, col] := intArray[row][col] != 0;
          col := col + 1;
        }
        row := row + 1;
      }
    }

    /** Snaps the camera to centre the player, clamped to the map; the old camera is ignored. */
    method UpdateCamera(playerX: int, playerY: int)
      requires Valid()
      modifies this`camX, this`camY
      ensures camX == Viewport.Offset(playerX, screenWidth, mapWidth)
      ensures camY == Viewport.Offset(playerY, screenHeight, mapHeight)
    {
      camX := camX + (playerX - screenWidth / 2 - camX);
      camY := camY + (playerY - screenHeight / 2 - camY);
      camX := Max(0, Min(camX, mapWidth - screenWidth));
      camY := Max(0, Min(camY, mapHeight - screenHeight));
    }

    /** The fence tiles drawn for the current camera. */
    function VisibleFences(): (r: Viewport.TileRange)
      requires Sized() && camX >= 0 && camY >= 0
      reads this
      ensures 0 <= r.rows.first && r.rows.last < collidableTiles.Length0
      ensures 0 <= r.cols.first && r.cols.last < collidableTiles.Length1
    {
      Viewport.VisibleRange(camX, camY, screenWidth, screenHeight,
                            collidableTiles.Length0, collidableTiles.Length1)
    }

    /** Whether a cell blocks; cells off the grid are open. */
    predicate IsBlocked(row: int, col: int)
      reads collidableTiles
    {
      0 <= row < collidableTiles.Length0 && 0 <= col < collidableTiles.Length1 && collidableTiles[row, col]
    }

    /** The fence sprite for the tile at (row, col); neighbours are read only inside the grid. */
    function FenceTileIndex(row: int, col: int): (i: int)
      requires 0 <= row < collidableTiles.Length0 && 0 <= col < collidableTiles.Length1
      reads collidableTiles
      ensures 0 <= i < FenceSpriteCount
      ensures i == FenceIndex(Neighbours(IsBlocked(row - 1, col), IsBlocked(row + 1, col),
                                         IsBlocked(row, col - 1), IsBlocked(row, col + 1)))
    {
      var top := row > 0 && collidableTiles[row - 1, col];
      var bottom := row < collidableTiles.Length0 - 1 && collidableTiles[row + 1, col];
      var left := col > 0 && collidableTiles[row, col - 1];
      var right := col < collidableTiles.Length1 - 1 && collidableTiles[row, col + 1];
      FenceIndex(Neighbours(top, bottom, left, right))
    }

    /** Row count for 0, column count otherwise: the map size in tiles. */
    function CollisionMap(n: int): (r: int)
      requires Sized()
      reads this
      ensures n == 0 ==> r * TileSize == mapHeight
      ensures n != 0 ==> r * TileSize == mapWidth
    {
      if n == 0 then collidableTiles.Length0 else collidableTiles.Length1
    }

    /** The inner loop of IsCollidable: one row of the window, left to right, starting from
        the scan state (x0, y0, v0, h0); each blocking tile whose box the hitbox overlaps
        pushes the position out on the axes whose edges it crosses. */
    method ScanRow(hitboxData: HitboxData, tileY: int, tileXStart: int, tileXEnd: int,
                   x0: int, y0: int, v0: bool, h0: bool, ghost hb: Box)
      returns (x: int, y: int, verticalCollision: bool, horizontalCollision: bool)
      requires Valid()
      requires 0 <= tileY < grid.rows && 0 <= tileXStart && tileXEnd < grid.cols
      requires hitboxData.hitboxLeft == hb.left && hitboxData.hitboxRight == hb.right
      requires hitboxData.hitboxTop == hb.top && hitboxData.hitboxBottom == hb.bottom
      ensures Scan(x, y, verticalCollision, horizontalCollision) ==
        ScanCols(grid, hb, camX, camY, tileY, tileXStart, Stop(tileXStart, tileXEnd), Scan(x0, y0, v0, h0))
    {
      var playerSize := PlayerSize;
      var tileSize := TileSize;
      x, y, verticalCollision, horizontalCollision := x0, y0, v0, h0;
      ghost var rowStart := Scan(x0, y0, v0, h0);
      var tileX := tileXStart;
      while tileX <= tileXEnd
        invariant tileXStart <= tileX <= Stop(tileXStart, tileXEnd)
        invariant Scan(x, y, verticalCollision, horizontalCollision) ==
          ScanCols(grid, hb, camX, camY, tileY, tileXStart, tileX, rowStart)
      {
        if collidableTiles[tileY, tileX] {
          var tilePixelX := tileX * tileSize - camX;
          var tilePixelY := tileY * tileSize - camY;
          var tileHitboxRight := tilePixelX + 32;
          var tileHitboxBottom := tilePixelY + 32;

          if hitboxData.hitboxRight > tilePixelX && hitboxData.hitboxLeft < tileHitboxRight &&
             hitboxData.hitboxBottom > tilePixelY && hitboxData.hitboxTop < tileHitboxBottom {
            if hitboxData.hitboxBottom > tilePixelY && hitboxData.hitboxTop < tilePixelY {
              verticalCollision := true;
              y := tilePixelY - playerSize;
            } else if hitboxData.hitboxTop < tileHitboxBottom && hitboxData.hitboxBottom > tileHitboxBottom {
              verticalCollision := true;
              y := tileHitboxBottom;
            }

            if hitboxData.hitboxRight > tilePixelX && hitboxData.hitboxLeft < tilePixelX {
              horizontalCollision := true;
              x := tilePixelX - playerSize;
            } else if hitboxData.hitboxLeft < tileHitboxRight && hitboxData.hitboxRight > tileHitboxRight {
              horizontalCollision := true;
              x := tileHitboxRight;
            }
          }
        }
        tileX := tileX + 1;
      }
    }

    /** The collision resolver: sets the player hitbox from `position`, refuses off-screen
        positions untouched, and otherwise scans the window around the hitbox, pushing the
        position out of every blocking tile it crosses and writing the result back. */
    method IsCollidable(position: array<int>, hitboxData: HitboxData) returns (canMove: bool)
      requires Valid()
      requires position.Length >= 2
      modifies position, hitboxData
      ensures var hb := PlayerHitbox(old(position[0]), old(position[1]));
        && hitboxData.hitboxLeft == hb.left && hitboxData.hitboxRight == hb.right
        && hitboxData.hitboxTop == hb.top && hitboxData.hitboxBottom == hb.bottom
      ensures hitboxData.tilePixelX == old(hitboxData.tilePixelX)
      ensures hitboxData.tilePixelY == old(hitboxData.tilePixelY)
      ensures hitboxData.tilehitsize == old(hitboxData.tilehitsize)
      ensures var o := Resolve(grid, camX, camY, screenWidth, screenHeight,
                               old(position[0]), old(position[1]));
        canMove == o.canMove && position[0] == o.x && position[1] == o.y
      ensures forall i :: 2 <= i < position.Length ==> position[i] == old(position[i])
      ensures canMove ==> position[0] == old(position[0]) && position[1] == old(position[1])
    {
      var x := position[0];
      var y := position[1];
      var playerSize := PlayerSize;
      var tileSize := TileSize;
      ghost var x0, y0 := x, y;
      ghost var hb := PlayerHitbox(x, y);

      hitboxData.Update(x + playerSize / 4, x + (3 * playerSize / 4),
                        y + playerSize / 4, y + (3 * playerSize / 4));

      if x < 0 || x + playerSize > screenWidth || y < 0 || y + playerSize > screenHeight {
        return false;
      }

      var verticalCollision := false;
      var horizontalCollision := false;

      var tileXStart := Max(0, (hitboxData.hitboxLeft / tileSize) - 1);
      var tileXEnd := Min(collidableTiles.Length1 - 1, (hitboxData.hitboxRight / tileSize) + 1);
      var tileYStart := Max(0, (hitboxData.hitboxTop / tileSize) - 1);
      var tileYEnd := Min(collidableTiles.Length0 - 1, (hitboxData.hitboxBottom / tileSize) + 1);
      ghost var w := ScanWindow(hb, grid.rows, grid.cols);
      assert w == Window(tileXStart, tileXEnd, tileYStart, tileYEnd);

      var tileY := tileYStart;
      while tileY <= tileYEnd
        invariant tileYStart <= tileY <= Stop(tileYStart, tileYEnd)
        invariant hitboxData.hitboxLeft == hb.left && hitboxData.hitboxRight == hb.right
        invariant hitboxData.hitboxTop == hb.top && hitboxData.hitboxBottom == hb.bottom
        invariant hitboxData.tilePixelX == old(hitboxData.tilePixelX)
        invariant hitboxData.tilePixelY == old(hitboxData.tilePixelY)
        invariant hitboxData.tilehitsize == old(hitboxData.tilehitsize)
        invariant forall i :: 0 <= i < position.Length ==> position[i] == old(position[i])
        invariant Scan(x, y, verticalCollision, horizontalCollision) ==
          ScanRows(grid, hb, camX, camY, w, tileY, Scan(x0, y0, false, false))
      {
        x, y, verticalCollision, horizontalCollision :=
          ScanRow(hitboxData, tileY, tileXStart, tileXEnd, x, y, verticalCollision, horizontalCollision, hb);
        tileY := tileY + 1;
      }

      position[0] := x;
      position[1] := y;
      canMove := !(verticalCollision || horizontalCollision);
      ResolveAllowedKeepsPosition(grid, camX, camY, screenWidth, screenHeight, x0, y0);
    }
  }
}
