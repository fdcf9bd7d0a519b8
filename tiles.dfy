/**
 * The level's tile map: building tiles, loading the map from the bytes of a
 * map file with a row-wrapping cursor, the first solid tile a box runs into,
 * and which tiles are drawn for a camera.
 */
module Tiles {
  import opened Wrappers
  import opened Config
  import opened Geometry

  /** TileTypeEnum. */
  const UNDEFINED: int := -1
  const EMPTY: int := 0
  const STANDARD_BLOCK: int := 1
  const N_TILE_TYPES: int := 2

  /**
   * Tile: the source stores the same box three times (renderRect, collider
   * and x/y/w/h); `Consistent` says the three agree.
   */
  datatype Tile = Tile(tileType: int, renderRect: Rect, collider: Rect, solid: bool, visible: bool,
                       x: int, y: int, w: int, h: int)

  predicate Consistent(t: Tile)
  {
    t.collider == t.renderRect &&
    t.x == t.renderRect.x && t.y == t.renderRect.y && t.w == t.renderRect.w && t.h == t.renderRect.h
  }

  /** loadTile: every copy of the tile's box is the given rectangle. */
  function LoadTile(tileType: int, renderRect: Rect, solid: bool, visible: bool): (t: Tile)
    ensures Consistent(t) && t.renderRect == renderRect
    ensures t.tileType == tileType && t.solid == solid && t.visible == visible
  {
    Tile(tileType, renderRect, renderRect, solid, visible, renderRect.x, renderRect.y, renderRect.w, renderRect.h)
  }

  /** The tile map: `size` slots, the clip of each tile type, the number of types. */
  datatype TileMap = TileMap(tiles: array<Tile>, size: int, tileClips: seq<Rect>, nTileTypes: int)

  /**
   * A slot the loader never wrote. The source leaves such slots uninitialised;
   * the model fills them with an undefined, non-solid, invisible zero tile.
   */
  const UnwrittenTile: Tile := LoadTile(UNDEFINED, Rect(0, 0, 0, 0), false, false)

  predicate IsLineBreak(b: byte) { b == 10 || b == 13 }

  /** SDL_atoi applied to the one-byte buffer: the value of a digit, 0 for anything else. */
  function DigitValue(b: byte): int
  {
    if 48 <= b <= 57 then b as int - 48 else 0
  }

  /** The tile a map byte produces with the cursor at (x, y). */
  function TileFor(b: byte, x: int, y: int, tileClips: seq<Rect>, nTileTypes: int): Tile
    requires 1 <= |tileClips| && nTileTypes <= |tileClips|
  {
    var t := DigitValue(b);
    if t > 0 && t < nTileTypes then LoadTile(t, Rect(x, y, tileClips[t].w, tileClips[t].h), true, true)
    // the source gives an empty tile the clip's WIDTH as its height
    else if t == 0 then LoadTile(EMPTY, Rect(x, y, tileClips[t].w, tileClips[t].w), false, false)
    else LoadTile(UNDEFINED, Rect(0, 0, 0, 0), false, false)
  }

  /** The cursor after placing `t`: wrap to the next row when the tile reaches the level width. */
  function NextX(x: int, t: Tile): int { if x + t.w >= LEVEL_WIDTH then 0 else x + t.w }
  function NextY(x: int, y: int, t: Tile): int { if x + t.w >= LEVEL_WIDTH then y + t.h else y }

  /**
   * The tiles loadTileMap writes for the rest of the file `bytes`, with the
   * cursor at (x, y) and `room` slots left.
   */
  function ParseFrom(bytes: seq<byte>, x: int, y: int, room: nat, tileClips: seq<Rect>, nTileTypes: int): seq<Tile>
    requires 1 <= |tileClips| && nTileTypes <= |tileClips|
    decreases |bytes|
  {
    if room == 0 || |bytes| == 0 then []
    else if IsLineBreak(bytes[0]) then ParseFrom(bytes[1..], x, y, room, tileClips, nTileTypes)
    else
      var t := TileFor(bytes[0], x, y, tileClips, nTileTypes);
      [t] + ParseFrom(bytes[1..], NextX(x, t), NextY(x, y, t), room - 1, tileClips, nTileTypes)
  }

  /** The bytes of the map file that stand for tiles. */
  function TileBytes(bytes: seq<byte>): (r: seq<byte>)
    ensures |r| <= |bytes|
    ensures forall k :: 0 <= k < |r| ==> !IsLineBreak(r[k])
  {
    if |bytes| == 0 then []
    else if IsLineBreak(bytes[0]) then TileBytes(bytes[1..])
    else [bytes[0]] + TileBytes(bytes[1..])
  }

  /** All slots of a loaded map: the parsed tiles, then unwritten slots. */
  function LoadedTiles(size: nat, file: Option<seq<byte>>, tileClips: seq<Rect>, nTileTypes: int): seq<Tile>
    requires 1 <= |tileClips| && nTileTypes <= |tileClips|
  {
    var parsed := if file.Some? then ParseFrom(file.value, 0, 0, size, tileClips, nTileTypes) else [];
    parsed + seq(size - Min(size, |parsed|), _ => UnwrittenTile)
  }

  /** Line breaks never consume a slot and never move the cursor. */
  lemma {:induction false} ParseSkipsLineBreaks(bytes: seq<byte>, x: int, y: int, room: nat, tileClips: seq<Rect>, nTileTypes: int)
    requires 1 <= |tileClips| && nTileTypes <= |tileClips|
    ensures ParseFrom(bytes, x, y, room, tileClips, nTileTypes) == ParseFrom(TileBytes(bytes), x, y, room, tileClips, nTileTypes)
    decreases |bytes|
  {
    if room == 0 || |bytes| == 0 {
    } else if IsLineBreak(bytes[0]) {
      ParseSkipsLineBreaks(bytes[1..], x, y, room, tileClips, nTileTypes);
    } else {
      var t := TileFor(bytes[0], x, y, tileClips, nTileTypes);
      ParseSkipsLineBreaks(bytes[1..], NextX(x, t), NextY(x, y, t), room - 1, tileClips, nTileTypes);
      assert TileBytes(bytes) == [bytes[0]] + TileBytes(bytes[1..]);
      assert TileBytes(bytes)[1..] == TileBytes(bytes[1..]);
    }
  }

  /** One tile per tile byte, and never more than the room left. */
  lemma {:induction false} ParseLength(bytes: seq<byte>, x: int, y: int, room: nat, tileClips: seq<Rect>, nTileTypes: int)
    requires 1 <= |tileClips| && nTileTypes <= |tileClips|
    ensures |ParseFrom(bytes, x, y, room, tileClips, nTileTypes)| == Min(room, |TileBytes(bytes)|)
    decreases |bytes|
  {
    if room == 0 || |bytes| == 0 {
    } else if IsLineBreak(bytes[0]) {
      ParseLength(bytes[1..], x, y, room, tileClips, nTileTypes);
    } else {
      var t := TileFor(bytes[0], x, y, tileClips, nTileTypes);
      ParseLength(bytes[1..], NextX(x, t), NextY(x, y, t), room - 1, tileClips, nTileTypes);
    }
  }

  /**
   * The k-th written tile comes from the k-th tile byte: a digit d with
   * 0 < d < nTileTypes gives a solid, visible tile of type d and the clip's
   * size; the digit 0 and every non-digit give an invisible, non-solid EMPTY
   * tile as wide and as high as clip 0 is wide; any other digit gives an
   * UNDEFINED zero box.
   */
  lemma {:induction false} ParseTileKinds(bytes: seq<byte>, x: int, y: int, room: nat, tileClips: seq<Rect>, nTileTypes: int, k: nat)
    requires 1 <= |tileClips| && nTileTypes <= |tileClips|
    requires k < |ParseFrom(bytes, x, y, room, tileClips, nTileTypes)|
    ensures k < |TileBytes(bytes)|
    ensures var t := ParseFrom(bytes, x, y, room, tileClips, nTileTypes)[k];
            var d := DigitValue(TileBytes(bytes)[k]);
      && Consistent(t)
      && (0 < d < nTileTypes ==> t.tileType == d && t.solid && t.visible &&
                                 t.w == tileClips[d].w && t.h == tileClips[d].h)
      && (d == 0 ==> t.tileType == EMPTY && !t.solid && !t.visible && t.w == tileClips[0].w && t.h == tileClips[0].w)
      && (d != 0 && !(0 < d < nTileTypes) ==> t.tileType == UNDEFINED && !t.solid && !t.visible && t.collider == Rect(0, 0, 0, 0))
    decreases |bytes|
  {
    ParseSkipsLineBreaks(bytes, x, y, room, tileClips, nTileTypes);
    ParseLength(bytes, x, y, room, tileClips, nTileTypes);
    ParseFilteredKinds(TileBytes(bytes), x, y, room, tileClips, nTileTypes, k);
  }

  lemma {:induction false} ParseFilteredKinds(f: seq<byte>, x: int, y: int, room: nat, tileClips: seq<Rect>, nTileTypes: int, k: nat)
    requires 1 <= |tileClips| && nTileTypes <= |tileClips|
    requires forall i :: 0 <= i < |f| ==> !IsLineBreak(f[i])
    requires k < |ParseFrom(f, x, y, room, tileClips, nTileTypes)|
    ensures k < |f|
    ensures exists cx, cy :: ParseFrom(f, x, y, room, tileClips, nTileTypes)[k] == TileFor(f[k], cx, cy, tileClips, nTileTypes)
    decreases |f|
  {
    var t := TileFor(f[0], x, y, tileClips, nTileTypes);
    if k == 0 {
      assert ParseFrom(f, x, y, room, tileClips, nTileTypes)[0] == TileFor(f[0], x, y, tileClips, nTileTypes);
    } else {
      ParseFilteredKinds(f[1..], NextX(x, t), NextY(x, y, t), room - 1, tileClips, nTileTypes, k - 1);
    }
  }

  /**
   * With clips of non-negative size the cursor never leaves [0, LEVEL_WIDTH)
   * horizontally or goes above the level, so neither does any written tile.
   */
  lemma {:induction false} ParseStaysInLevel(bytes: seq<byte>, x: int, y: int, room: nat, tileClips: seq<Rect>, nTileTypes: int)
    requires 1 <= |tileClips| && nTileTypes <= |tileClips|
    requires forall i :: 0 <= i < |tileClips| ==> tileClips[i].w >= 0 && tileClips[i].h >= 0
    requires 0 <= x < LEVEL_WIDTH && 0 <= y
    ensures forall k :: 0 <= k < |ParseFrom(bytes, x, y, room, tileClips, nTileTypes)| ==>
      var t := ParseFrom(bytes, x, y, room, tileClips, nTileTypes)[k];
      0 <= t.x < LEVEL_WIDTH && 0 <= t.y
    decreases |bytes|
  {
    if room == 0 || |bytes| == 0 {
    } else if IsLineBreak(bytes[0]) {
      ParseStaysInLevel(bytes[1..], x, y, room, tileClips, nTileTypes);
    } else {
      var t := TileFor(bytes[0], x, y, tileClips, nTileTypes);
      ParseStaysInLevel(bytes[1..], NextX(x, t), NextY(x, y, t), room - 1, tileClips, nTileTypes);
    }
  }

  /** One step of the loader: a line break is skipped, any other byte becomes the next tile. */
  lemma ParseStep(bytes: seq<byte>, pos: nat, x: int, y: int, room: nat, tileClips: seq<Rect>, nTileTypes: int)
    requires 1 <= |tileClips| && nTileTypes <= |tileClips|
    requires pos < |bytes| && room > 0
    ensures IsLineBreak(bytes[pos]) ==>
      ParseFrom(bytes[pos..], x, y, room, tileClips, nTileTypes) == ParseFrom(bytes[pos + 1..], x, y, room, tileClips, nTileTypes)
    ensures !IsLineBreak(bytes[pos]) ==>
      var t := TileFor(bytes[pos], x, y, tileClips, nTileTypes);
      ParseFrom(bytes[pos..], x, y, room, tileClips, nTileTypes) ==
        [t] + ParseFrom(bytes[pos + 1..], NextX(x, t), NextY(x, y, t), room - 1, tileClips, nTileTypes)
  {
    assert bytes[pos..][1..] == bytes[pos + 1..];
  }

  /**
   * loadTileMap: reads the file byte by byte into `size` slots. A file that
   * could not be opened (None) leaves every slot unwritten.
   */
  method LoadTileMap(size: int, file: Option<seq<byte>>, tileClips: seq<Rect>, nTileTypes: int) returns (m: TileMap)
    requires size >= 0 && 1 <= nTileTypes <= |tileClips|
    ensures m.size == size && m.nTileTypes == nTileTypes && m.tileClips == tileClips[..nTileTypes]
    ensures m.tiles.Length == size
    ensures m.tiles[..] == LoadedTiles(size, file, tileClips, nTileTypes)
  {
    var tiles := new Tile[size](_ => UnwrittenTile);
    if file.Some? {
      var written := ReadTiles(tiles, file.value, tileClips, nTileTypes);
      FillTail(tiles, written, ParseFrom(file.value, 0, 0, size, tileClips, nTileTypes));
    } else {
      assert tiles[..] == seq(size, _ => UnwrittenTile);
    }
    m := TileMap(tiles, size, tileClips[..nTileTypes], nTileTypes);
  }

  /**
   * The read loop of loadTileMap: line breaks are skipped, every other byte
   * becomes the tile at the cursor, and the cursor wraps to the next row once
   * a tile reaches the right edge of the level. Returns the number of tiles written.
   */
  method ReadTiles(tiles: array<Tile>, bytes: seq<byte>, tileClips: seq<Rect>, nTileTypes: int) returns (i: nat)
    requires 1 <= nTileTypes <= |tileClips|
    requires forall k :: 0 <= k < tiles.Length ==> tiles[k] == UnwrittenTile
    modifies tiles
    ensures i <= tiles.Length && tiles[..i] == ParseFrom(bytes, 0, 0, tiles.Length, tileClips, nTileTypes)
    ensures forall k :: i <= k < tiles.Length ==> tiles[k] == UnwrittenTile
  {
    ghost var parsed := ParseFrom(bytes, 0, 0, tiles.Length, tileClips, nTileTypes);
    ghost var written: seq<Tile> := [];
    var x, y, pos := 0, 0, 0;
    i := 0;
    assert bytes[0..] == bytes;
    while i < tiles.Length && pos < |bytes|
      invariant 0 <= pos <= |bytes| && i <= tiles.Length
      invariant tiles[..i] == written
      invariant written + ParseFrom(bytes[pos..], x, y, tiles.Length - i, tileClips, nTileTypes) == parsed
      invariant forall k :: i <= k < tiles.Length ==> tiles[k] == UnwrittenTile
    {
      var b := bytes[pos];
      ParseStep(bytes, pos, x, y, tiles.Length - i, tileClips, nTileTypes);
      pos := pos + 1;
      if b == 10 || b == 13 {
        continue;
      }
      var t := TileFor(b, x, y, tileClips, nTileTypes);
      ghost var rest := ParseFrom(bytes[pos..], NextX(x, t), NextY(x, y, t), tiles.Length - i - 1, tileClips, nTileTypes);
      AppendOne(written, t, rest, parsed);
      if x + t.w >= LEVEL_WIDTH {
        x := 0;
        y := y + t.h;
      } else {
        x := x + t.w;
      }
      tiles[i] := t;
      written := written + [t];
      i := i + 1;
    }
    if i < tiles.Length {
      assert ParseFrom(bytes[pos..], x, y, tiles.Length - i, tileClips, nTileTypes) == [];
    }
  }

  lemma AppendOne(written: seq<Tile>, t: Tile, rest: seq<Tile>, parsed: seq<Tile>)
    requires written + ([t] + rest) == parsed
    ensures (written + [t]) + rest == parsed
  {
    assert written + ([t] + rest) == (written + [t]) + rest;
  }

  /** Once parsing stops, the written prefix and the untouched tail make up the loaded map. */
  lemma FillTail(tiles: array<Tile>, i: nat, parsed: seq<Tile>)
    requires i <= tiles.Length && tiles[..i] == parsed
    requires forall k :: i <= k < tiles.Length ==> tiles[k] == UnwrittenTile
    ensures tiles[..] == parsed + seq(tiles.Length - Min(tiles.Length, |parsed|), _ => UnwrittenTile)
  {
    assert tiles[..] == tiles[..i] + tiles[i..];
  }

  /** The tile stops a box: it is solid and its collider overlaps the box. */
  predicate Blocks(t: Tile, box: Rect)
  {
    t.solid && CheckCollision(box, t.collider)
  }

  /** `hit` names the first blocking tile in map order, or None when no tile blocks. */
  ghost predicate IsFirstBlocking(tiles: seq<Tile>, box: Rect, hit: Option<nat>)
  {
    match hit
    case None => forall j :: 0 <= j < |tiles| ==> !Blocks(tiles[j], box)
    case Some(i) => i < |tiles| && Blocks(tiles[i], box) && forall j :: 0 <= j < i ==> !Blocks(tiles[j], box)
  }

  lemma FirstBlockingUnique(tiles: seq<Tile>, box: Rect, h1: Option<nat>, h2: Option<nat>)
    requires IsFirstBlocking(tiles, box, h1) && IsFirstBlocking(tiles, box, h2)
    ensures h1 == h2
  {
  }

  /** The first tile at index `from` or later that blocks the box. */
  function FirstBlockingFrom(tiles: seq<Tile>, box: Rect, from: nat): Option<nat>
    requires from <= |tiles|
    decreases |tiles| - from
  {
    if from == |tiles| then None
    else if Blocks(tiles[from], box) then Some(from)
    else FirstBlockingFrom(tiles, box, from + 1)
  }

  /** The first tile in map order that blocks the box. */
  function FirstBlocking(tiles: seq<Tile>, box: Rect): Option<nat>
  {
    FirstBlockingFrom(tiles, box, 0)
  }

  lemma {:induction false} FirstBlockingFromSpec(tiles: seq<Tile>, box: Rect, from: nat)
    requires from <= |tiles|
    requires forall j :: 0 <= j < from ==> !Blocks(tiles[j], box)
    ensures IsFirstBlocking(tiles, box, FirstBlockingFrom(tiles, box, from))
    decreases |tiles| - from
  {
    if from < |tiles| && !Blocks(tiles[from], box) {
      FirstBlockingFromSpec(tiles, box, from + 1);
    }
  }

  /** FirstBlocking finds the first blocking tile, and None exactly when no tile blocks. */
  lemma FirstBlockingSpec(tiles: seq<Tile>, box: Rect)
    ensures IsFirstBlocking(tiles, box, FirstBlocking(tiles, box))
  {
    FirstBlockingFromSpec(tiles, box, 0);
  }

  /** Any answer meeting the first-blocking description is FirstBlocking's. */
  lemma FirstBlockingIs(tiles: seq<Tile>, box: Rect, hit: Option<nat>)
    requires IsFirstBlocking(tiles, box, hit)
    ensures FirstBlocking(tiles, box) == hit
  {
    FirstBlockingSpec(tiles, box);
    FirstBlockingUnique(tiles, box, hit, FirstBlocking(tiles, box));
  }

  /**
   * checkTileMapCollisions: the scan over the map for the first solid tile
   * overlapping the box; the tile found is the one the handler receives.
   */
  method CheckTileMapCollisions(tiles: array<Tile>, box: Rect) returns (hit: Option<nat>)
    ensures IsFirstBlocking(tiles[..], box, hit)
    ensures hit == FirstBlocking(tiles[..], box)
  {
    var i := 0;
    while i < tiles.Length
      invariant 0 <= i <= tiles.Length
      invariant forall j :: 0 <= j < i ==> !Blocks(tiles[j], box)
    {
      if tiles[i].solid && CheckCollision(box, tiles[i].collider) {
        hit := Some(i);
        FirstBlockingIs(tiles[..], box, hit);
        return;
      }
      i := i + 1;
    }
    hit := None;
    FirstBlockingIs(tiles[..], box, hit);
  }

  /** renderTileMap draws a tile iff it is visible and overlaps the camera. */
  predicate Drawn(t: Tile, camera: Rect)
  {
    t.visible && CheckCollision(t.collider, camera)
  }

  /** The tile-selection half of renderTileMap: the indices drawn, in map order. */
  method SelectTilesToRender(tiles: array<Tile>, camera: Rect) returns (drawn: seq<nat>)
    ensures forall k :: 0 <= k < |drawn| ==> drawn[k] < tiles.Length && Drawn(tiles[drawn[k]], camera)
    ensures forall k, l :: 0 <= k < l < |drawn| ==> drawn[k] < drawn[l]
    ensures forall i :: 0 <= i < tiles.Length && Drawn(tiles[i], camera) ==> i in drawn
  {
    drawn := [];
    var i := 0;
    while i < tiles.Length
      invariant 0 <= i <= tiles.Length
      invariant forall k :: 0 <= k < |drawn| ==> drawn[k] < i && Drawn(tiles[drawn[k]], camera)
      invariant forall k, l :: 0 <= k < l < |drawn| ==> drawn[k] < drawn[l]
      invariant forall j :: 0 <= j < i && Drawn(tiles[j], camera) ==> j in drawn
    {
      if tiles[i].visible && CheckCollision(tiles[i].collider, camera) {
        drawn := drawn + [i];
      }
      i := i + 1;
    }
  }
}
