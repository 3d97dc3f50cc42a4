/** The shared hitbox record: the player's box and the box of the tile last checked. */
module Hitbox {

  class HitboxData {
    var hitboxLeft: int
    var hitboxRight: int
    var hitboxTop: int
    var hitboxBottom: int

    var tilePixelX: int
    var tilePixelY: int
    var tilehitsize: int

    /** Java's implicit constructor: every field starts at 0. */
    constructor ()
      ensures hitboxLeft == 0 && hitboxRight == 0 && hitboxTop == 0 && hitboxBottom == 0
      ensures tilePixelX == 0 && tilePixelY == 0 && tilehitsize == 0
    {
      hitboxLeft, hitboxRight, hitboxTop, hitboxBottom := 0, 0, 0, 0;
      tilePixelX, tilePixelY, tilehitsize := 0, 0, 0;
    }

    /** Overwrites the player box; the tile box is left as it was. */
    method Update(left: int, right: int, top: int, bottom: int)
      modifies this
      ensures hitboxLeft == left && hitboxRight == right
      ensures hitboxTop == top && hitboxBottom == bottom
      ensures tilePixelX == old(tilePixelX) && tilePixelY == old(tilePixelY)
      ensures tilehitsize == old(tilehitsize)
    {
      hitboxLeft := left;
      hitboxRight := right;
      hitboxTop := top;
      hitboxBottom := bottom;
    }

    /** Overwrites the tile box; the player box is left as it was. */
    method UpdateTiles(tpx: int, tpy: int, thbs: int)
      modifies this
      ensures tilePixelX == tpx && tilePixelY == tpy && tilehitsize == thbs
      ensures hitboxLeft == old(hitboxLeft) && hitboxRight == old(hitboxRight)
      ensures hitboxTop == old(hitboxTop) && hitboxBottom == old(hitboxBottom)
    {
      tilePixelX := tpx;
      tilePixelY := tpy;
      tilehitsize := thbs;
    }
  }
}
