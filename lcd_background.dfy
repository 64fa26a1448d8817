/**
 * The background map (src/lcd/background_map.rs): a 32x32 grid of tile
 * numbers over a tile set.  A row iterator walks one pixel row of the
 * screen, fetching a tile's row whenever it enters a new tile.
 */
module LcdBackground {
  import opened Bits
  import opened Hardware
  import opened Wrappers
  import opened LcdTiles

  /** The background maps the LCD builds are 0x400 bytes: 32 rows of 32 tile numbers. */
  const MAP_SIZE: nat := 0x400
  const MAP_WIDTH: nat := 32

  type MapData = s: seq<u8> | |s| == MAP_SIZE witness seq(MAP_SIZE, _ => 0)

  /** `BackgroundMap::new(data, tile_set)`. */
  datatype BackgroundMap = BackgroundMap(data: MapData, tileSet: TileSetData)

  /**
   * `tile_row(row, col)`: row `row % 8` of the tile the map names at
   * ((row / 8), (col / 8)).  The map has 32 rows of tiles, so pixel rows go
   * up to 255; past that the source indexes past the map and panics.
   */
  function TileRow(m: BackgroundMap, row: nat, col: nat): (r: seq<u8>)
    requires row < 256 && col < 256
    ensures |r| == TILE_WIDTH && forall i :: 0 <= i < TILE_WIDTH ==> r[i] <= 3
  {
    var idx := (row / 8) * MAP_WIDTH + col / 8;
    RowPixels(TileAt(m.tileSet, m.data[idx]), row % 8)
  }

  /** The value the iterator yields for column `col`: pixel `col % 8` of the tile row there. */
  function PixelAt(m: BackgroundMap, row: nat, col: nat): (p: u8)
    requires row < 256 && col < 256
    ensures p <= 3
  {
    TileRow(m, row, col)[col % 8]
  }

  /** The pixels of column `col` and the seven columns after it in its tile come from one tile row. */
  lemma SameTileRow(m: BackgroundMap, row: nat, col: nat)
    requires row < 256 && col < 256
    ensures TileRow(m, row, col) == TileRow(m, row, col - col % 8)
  {
    assert (col - col % 8) / 8 == col / 8;
  }

  /** Stepping one column stays in the tile, or starts the next one after its last column. */
  lemma NextColumn(col: nat)
    ensures col % 8 < 7 ==> (col + 1) % 8 == col % 8 + 1 && (col + 1) - (col + 1) % 8 == col - col % 8
    ensures col % 8 == 7 ==> (col + 1) % 8 == 0
  {
    if col % 8 < 7 {
      DivUnique(col + 1, 8, col / 8, col % 8 + 1);
    } else {
      DivUnique(col + 1, 8, col / 8 + 1, 0);
    }
  }

  /** The cached tile row is the one of the tile the last yielded column lies in. */
  ghost predicate CacheHolds(m: BackgroundMap, row: nat, col: nat, cached: seq<u8>)
  {
    row < 256 && col <= GAME_WIDTH && |cached| == TILE_WIDTH
    && (col % 8 != 0 ==> cached == TileRow(m, row, col - col % 8))
  }

  /**
   * One step of the iterator on its column and cached row: the refetched
   * (or kept) tile row holds the column's pixel and is the cached row the
   * next column needs.
   */
  lemma NextStep(m: BackgroundMap, row: nat, col: nat, cached: seq<u8>, now: seq<u8>)
    requires row < 256 && col < GAME_WIDTH && CacheHolds(m, row, col, cached)
    requires now == if col % 8 == 0 then TileRow(m, row, col) else cached
    ensures |now| == TILE_WIDTH && now[col % 8] == PixelAt(m, row, col)
    ensures CacheHolds(m, row, col + 1, now)
  {
    SameTileRow(m, row, col);
    NextColumn(col);
    if col % 8 < 7 {
      SameTileRow(m, row, col + 1);
    }
  }

  class RowIterator {
    const backgroundMap: BackgroundMap
    const row: nat
    var col: nat
    var currentTileRow: seq<u8>

    ghost predicate Valid()
      reads this
    {
      CacheHolds(backgroundMap, row, col, currentTileRow)
    }

    /**
     * `row_iter(row)`: column 0 and an empty tile row.  Rows past 255 are
     * outside the map (the source panics on the first `next`).
     */
    constructor (backgroundMap: BackgroundMap, row: nat)
      requires row < 256
      ensures Valid() && this.backgroundMap == backgroundMap && this.row == row && col == 0
    {
      this.backgroundMap := backgroundMap;
      this.row := row;
      col := 0;
      currentTileRow := seq(TILE_WIDTH, _ => 0);
    }

    /**
     * `next`: the pixel at the current column, fetching the tile row when
     * the column starts a tile; `None` once all GAME_WIDTH columns are out.
     */
    method Next() returns (r: Option<u8>)
      requires Valid()
      modifies this
      ensures Valid()
      ensures old(col) >= GAME_WIDTH ==> r.None? && col == old(col)
      ensures old(col) < GAME_WIDTH ==> r == Some(PixelAt(backgroundMap, row, old(col))) && col == old(col) + 1
    {
      if col >= GAME_WIDTH {
        return None;
      }
      var offset := col % 8;
      var tileRow := currentTileRow;
      if offset == 0 {
        tileRow := TileRow(backgroundMap, row, col);
      }
      NextStep(backgroundMap, row, col, currentTileRow, tileRow);
      r := Some(tileRow[offset]);
      currentTileRow := tileRow;
      col := col + 1;
    }
  }
}
