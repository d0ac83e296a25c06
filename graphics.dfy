/**
 * The sprite and tilemap examples (graphics.c): a player sprite that the D-pad moves two
 * pixels per frame inside the 320 x 224 screen, and a 20 x 10 tilemap drawn onto plane A.
 * Plane A is modelled as a two-dimensional array of tile words, row by row.
 */
module Graphics {

  const MapWidth: nat := 20
  const MapHeight: nat := 10

  /** `simple_map`: the tile of each cell, row by row; 0 is an empty cell. */
  const SimpleMap: seq<seq<int>> := [
    [1,1,1,1,1,1,1,1,1,1,1,1,1,1,1,1,1,1,1,1],
    [1,2,3,0,0,0,0,0,0,0,0,0,0,0,0,0,0,2,3,1],
    [1,0,0,0,0,0,0,0,0,0,0,0,0,0,0,0,0,0,0,1],
    [1,0,0,2,2,0,0,0,0,0,0,0,0,0,2,2,0,0,0,1],
    [1,0,0,2,2,0,0,0,0,0,0,0,0,0,2,2,0,0,0,1],
    [1,0,0,0,0,0,0,0,0,0,0,0,0,0,0,0,0,0,0,1],
    [1,0,0,0,0,0,0,3,3,3,3,0,0,0,0,0,0,0,0,1],
    [1,0,0,0,0,0,0,3,0,0,3,0,0,0,0,0,0,0,0,1],
    [1,2,3,0,0,0,0,3,3,3,3,0,0,0,0,0,0,2,3,1],
    [1,1,1,1,1,1,1,1,1,1,1,1,1,1,1,1,1,1,1,1]
  ]

  /** The map is a full 20 x 10 rectangle. */
  predicate MapShape() {
    |SimpleMap| == MapHeight && forall r :: 0 <= r < MapHeight ==> |SimpleMap[r]| == MapWidth
  }

  lemma SimpleMapShape()
    ensures MapShape()
  {
  }

  /** Every cell on the edge of the map holds tile 1, so the frame of the map is drawn whole. */
  lemma BorderIsSolid()
    ensures MapShape()
    ensures forall c :: 0 <= c < MapWidth ==> SimpleMap[0][c] == 1 && SimpleMap[MapHeight - 1][c] == 1
    ensures forall r :: 0 <= r < MapHeight ==> SimpleMap[r][0] == 1 && SimpleMap[r][MapWidth - 1] == 1
  {
    assert SimpleMap[0] == seq(20, _ => 1);
    assert SimpleMap[9] == seq(20, _ => 1);
  }

  /**
   * The word a drawn cell holds: palette 0, no priority and no flips leave only the tile index,
   * `userIndex` (SGDK's TILE_USER_INDEX) plus the map value.
   */
  function TileWord(userIndex: int, v: int): int {
    userIndex + v
  }

  /** What cell (r, c) of plane A holds once the map is displayed: its tile, or the cleared 0. */
  function DrawnCell(userIndex: int, r: nat, c: nat): int
    requires r < MapHeight && c < MapWidth
  {
    SimpleMapShape();
    if SimpleMap[r][c] != 0 then TileWord(userIndex, SimpleMap[r][c]) else 0
  }

  /** Plane A holds the displayed map in its top-left corner and the cleared tile elsewhere. */
  ghost predicate ShowsMap(plane: array2<int>, userIndex: int)
    reads plane
  {
    forall r, c :: 0 <= r < plane.Length0 && 0 <= c < plane.Length1 ==>
      plane[r, c] == if r < MapHeight && c < MapWidth then DrawnCell(userIndex, r, c) else 0
  }

  /** A displayed map shows the tile-1 frame around its edge. */
  lemma DisplayedBorder(plane: array2<int>, userIndex: int)
    requires MapHeight <= plane.Length0 && MapWidth <= plane.Length1 && ShowsMap(plane, userIndex)
    ensures forall c :: 0 <= c < MapWidth ==>
              plane[0, c] == userIndex + 1 && plane[MapHeight - 1, c] == userIndex + 1
    ensures forall r :: 0 <= r < MapHeight ==>
              plane[r, 0] == userIndex + 1 && plane[r, MapWidth - 1] == userIndex + 1
  {
    BorderIsSolid();
  }

  /** VDP_clearPlane: every cell of the plane back to tile 0. */
  method ClearPlane(plane: array2<int>)
    modifies plane
    ensures forall r, c :: 0 <= r < plane.Length0 && 0 <= c < plane.Length1 ==> plane[r, c] == 0
  {
    var r := 0;
    while r < plane.Length0
      invariant r <= plane.Length0
      invariant forall i, j :: 0 <= i < r && 0 <= j < plane.Length1 ==> plane[i, j] == 0
    {
      var c := 0;
      while c < plane.Length1
        invariant c <= plane.Length1
        invariant forall i, j :: 0 <= i < r && 0 <= j < plane.Length1 ==> plane[i, j] == 0
        invariant forall j :: 0 <= j < c ==> plane[r, j] == 0
      {
        plane[r, c] := 0;
        c := c + 1;
      }
      r := r + 1;
    }
  }

  /** The inner loop of `display_simple_tilemap` for row `r`: each non-zero cell written, zero cells left alone. */
  method DrawRow(plane: array2<int>, userIndex: int, r: nat)
    requires r < MapHeight && MapHeight <= plane.Length0 && MapWidth <= plane.Length1
    modifies plane
    ensures forall c :: 0 <= c < MapWidth ==>
              plane[r, c] == if SimpleMap[r][c] != 0 then TileWord(userIndex, SimpleMap[r][c]) else old(plane[r, c])
    ensures forall i, j :: 0 <= i < plane.Length0 && 0 <= j < plane.Length1 && (i != r || MapWidth <= j) ==>
              plane[i, j] == old(plane[i, j])
  {
    SimpleMapShape();
    var c := 0;
    while c < MapWidth
      invariant c <= MapWidth
      invariant forall j :: 0 <= j < c ==>
                  plane[r, j] == if SimpleMap[r][j] != 0 then TileWord(userIndex, SimpleMap[r][j]) else old(plane[r, j])
      invariant forall i, j :: 0 <= i < plane.Length0 && 0 <= j < plane.Length1 && (i != r || c <= j) ==>
                  plane[i, j] == old(plane[i, j])
    {
      if SimpleMap[r][c] != 0 {
        plane[r, c] := TileWord(userIndex, SimpleMap[r][c]);
      }
      c := c + 1;
    }
  }

  /**
   * display_simple_tilemap: plane A cleared, then each non-zero map cell written at its own
   * coordinates, with `userIndex` the first user tile.
   */
  method DisplaySimpleTilemap(plane: array2<int>, userIndex: int)
    requires MapHeight <= plane.Length0 && MapWidth <= plane.Length1
    modifies plane
    ensures ShowsMap(plane, userIndex)
  {
    ClearPlane(plane);
    var r := 0;
    while r < MapHeight
      invariant r <= MapHeight
      invariant forall i, j :: 0 <= i < plane.Length0 && 0 <= j < plane.Length1 ==>
                  plane[i, j] == if i < r && j < MapWidth then DrawnCell(userIndex, i, j) else 0
    {
      DrawRow(plane, userIndex, r);
      r := r + 1;
    }
  }

  const PlayerSpeed: int := 2

  /** The largest sprite coordinates that keep the 16 x 16 sprite on the 320 x 224 screen. */
  const MaxPlayerX: int := 320 - 16
  const MaxPlayerY: int := 224 - 16

  /**
   * One axis of `update_sprites_example`: both held directions applied, then the result
   * brought back into [0, limit].
   */
  function MoveAxis(v: int, minus: bool, plus: bool, limit: int): int {
    var moved := v - (if minus then PlayerSpeed else 0) + (if plus then PlayerSpeed else 0);
    if moved < 0 then 0 else if moved > limit then limit else moved
  }

  /** A position inside [0, limit] stays inside and moves by at most two pixels. */
  lemma MoveAxisBounds(v: int, minus: bool, plus: bool, limit: int)
    requires 0 <= v <= limit
    ensures 0 <= MoveAxis(v, minus, plus, limit) <= limit
    ensures -PlayerSpeed <= MoveAxis(v, minus, plus, limit) - v <= PlayerSpeed
  {
  }

  /** Any position, even off the screen, is brought back inside after one frame. */
  lemma MoveAxisClamps(v: int, minus: bool, plus: bool, limit: int)
    requires 0 <= limit
    ensures 0 <= MoveAxis(v, minus, plus, limit) <= limit
  {
  }

  /** Opposite directions held together cancel, and with nothing held the axis stays, inside the screen. */
  lemma OppositeDirectionsCancel(v: int, limit: int)
    requires 0 <= v <= limit
    ensures MoveAxis(v, true, true, limit) == v
    ensures MoveAxis(v, false, false, limit) == v
  {
  }

  /** One direction alone moves two pixels that way, stopping at the edge. */
  lemma SingleDirection(v: int, limit: int)
    requires 0 <= v <= limit
    ensures MoveAxis(v, true, false, limit) == if v < 2 then 0 else v - 2
    ensures MoveAxis(v, false, true, limit) == if limit - 2 < v then limit else v + 2
  {
  }

  /** The statics `player_x` and `player_y`, and the position last given to the hardware sprite. */
  class Player {
    var x: int
    var y: int
    var spriteX: int
    var spriteY: int

    ghost predicate Valid()
      reads this
    {
      0 <= x <= MaxPlayerX && 0 <= y <= MaxPlayerY
    }

    /** The static initialisers (100, 100); `setup_sprites` places the sprite there. */
    constructor()
      ensures Valid() && x == 100 && y == 100 && spriteX == x && spriteY == y
    {
      x, y := 100, 100;
      spriteX, spriteY := 100, 100;
    }

    /**
     * update_sprites_example, with the directions held and the A press of this frame: the
     * position steps and is clamped, the sprite follows, and `ping` says whether the sound
     * effect is started.
     */
    method Update(left: bool, right: bool, up: bool, down: bool, aPressed: bool) returns (ping: bool)
      requires Valid()
      modifies this
      ensures Valid()
      ensures x == MoveAxis(old(x), left, right, MaxPlayerX) && y == MoveAxis(old(y), up, down, MaxPlayerY)
      ensures spriteX == x && spriteY == y
      ensures ping == aPressed
    {
      if left {
        x := x - PlayerSpeed;
      }
      if right {
        x := x + PlayerSpeed;
      }
      if up {
        y := y - PlayerSpeed;
      }
      if down {
        y := y + PlayerSpeed;
      }
      if x < 0 {
        x := 0;
      }
      if x > MaxPlayerX {
        x := MaxPlayerX;
      }
      if y < 0 {
        y := 0;
      }
      if y > MaxPlayerY {
        y := MaxPlayerY;
      }
      spriteX, spriteY := x, y;
      ping := aPressed;
      MoveAxisBounds(old(x), left, right, MaxPlayerX);
      MoveAxisBounds(old(y), up, down, MaxPlayerY);
    }
  }
}
