/** The camera and the visible tile range, computed the same way by the fence layer and the
    background layer. */
module Viewport {
  import opened Config
  import opened JavaMath

  /** The snap-to-centre camera on one axis: the tracked coordinate minus half the screen,
      clamped to [0, world - screen]; when the world is narrower than the screen the lower
      bound wins and the camera stays at 0. */
  function Offset(track: int, screen: int, world: int): (cam: int)
    requires screen >= 0
    ensures 0 <= cam
    ensures world >= screen ==> cam <= world - screen
    ensures world < screen ==> cam == 0
    ensures 0 <= track - screen / 2 <= world - screen ==> cam == track - screen / 2
  {
    Max(0, Min(track - screen / 2, world - screen))
  }

  function Abs(n: int): nat {
    if n < 0 then -n else n
  }

  /** Of all the offsets the clamp allows, the camera takes the one nearest to centring the
      tracked point. */
  lemma OffsetIsNearest(track: int, screen: int, world: int, c: int)
    requires screen >= 0
    requires 0 <= c <= Max(0, world - screen)
    ensures Abs(Offset(track, screen, world) - (track - screen / 2)) <= Abs(c - (track - screen / 2))
  {
  }

  /** The first and last tile index drawn on one axis. */
  datatype Span = Span(first: int, last: int)

  /** The tiles on one axis that a camera at `cam` draws: from the tile under the camera to the
      tile under the far screen edge, cut to the last tile of the grid. */
  function VisibleSpan(cam: int, screen: int, count: int): (s: Span)
    requires cam >= 0 && screen >= 0
    ensures 0 <= s.first && s.last <= count - 1
  {
    Span(Max(0, cam / TileSize), Min((cam + screen) / TileSize, count - 1))
  }

  /** A tile is drawn exactly when it lies in the grid and its pixels [48t, 48t + 48) meet the
      screen's pixels [cam, cam + screen]. */
  lemma {:induction false} VisibleSpanExact(cam: int, screen: int, count: int, t: int)
    requires cam >= 0 && screen >= 0
    ensures var s := VisibleSpan(cam, screen, count);
      s.first <= t <= s.last <==>
      0 <= t < count && t * TileSize + TileSize > cam && t * TileSize <= cam + screen
  {
    var q, e := cam / TileSize, (cam + screen) / TileSize;
    assert cam == q * TileSize + cam % TileSize;
    assert cam + screen == e * TileSize + (cam + screen) % TileSize;
    assert t >= q <==> t * TileSize + TileSize > cam;
    assert t <= e <==> t * TileSize <= cam + screen;
  }

  /** The visible block of the grid, columns then rows. */
  datatype TileRange = TileRange(cols: Span, rows: Span)

  /** The tile range drawn for camera (camX, camY) over a grid of `rows` by `cols` tiles. */
  function VisibleRange(camX: int, camY: int, screenWidth: int, screenHeight: int,
                        rows: int, cols: int): (r: TileRange)
    requires camX >= 0 && camY >= 0 && screenWidth >= 0 && screenHeight >= 0
    ensures 0 <= r.cols.first && r.cols.last <= cols - 1
    ensures 0 <= r.rows.first && r.rows.last <= rows - 1
  {
    TileRange(VisibleSpan(camX, screenWidth, cols), VisibleSpan(camY, screenHeight, rows))
  }
}
