/**
 * Tiles (src/lcd/tiles.rs): a tile is 16 bytes, two per pixel row.  In a
 * row the first byte holds the low bit and the second byte the high bit of
 * each of the eight pixels, leftmost pixel in bit 7.  A tile set is a run
 * of tiles addressed by an 8-bit tile number.
 */
module LcdTiles {
  import opened Bits

  const TILE_SIZE: nat := 16
  const TILE_WIDTH: nat := 8
  /** The tile sets the LCD builds are 0x1000 bytes: 256 tiles. */
  const TILE_SET_SIZE: nat := 0x1000

  type TileData = s: seq<u8> | |s| == TILE_SIZE witness seq(TILE_SIZE, _ => 0)
  type TileSetData = s: seq<u8> | |s| == TILE_SET_SIZE witness seq(TILE_SET_SIZE, _ => 0)

  /**
   * One pixel of a row, as `row` computes it: `((ub >> shift << 1) & 0b10) |
   * ((lb >> shift) & 0b01)` with `shift = 7 - i`, the shift left done in
   * eight bits.
   */
  function Pixel(lb: u8, ub: u8, i: nat): (p: u8)
    requires i < TILE_WIDTH
    ensures p == 2 * Bit(ub, 7 - i) + Bit(lb, 7 - i)
    ensures p <= 3
  {
    var shift: nat := 7 - i;
    BitShr(ub, shift, 0);
    BitShr(lb, shift, 0);
    var high := Wrap8((ub / Pow2(shift)) * 2);
    var hi := And(high, 2);
    var lo := And(lb / Pow2(shift), 1);
    PixelBits(ub / Pow2(shift), lb / Pow2(shift));
    Or(hi, lo)
  }

  lemma PixelBits(u: nat, l: nat)
    requires u < 0x100
    ensures And(Wrap8(u * 2), 2) == 2 * (u % 2)
    ensures And(l, 1) == l % 2
    ensures Or(And(Wrap8(u * 2), 2), And(l, 1)) == 2 * (u % 2) + l % 2
  {
    var w := Wrap8(u * 2);
    assert w == (u * 2) % 0x100;
    assert Pow2(1) == 2;
    MaskBit(w, 1);
    assert Bit(w, 1) == (w / 2) % 2;
    if u < 0x80 {
      assert w == u * 2;
    } else {
      assert w == u * 2 - 0x100;
    }
    AndOne(l);
    assert Pow2(0) == 1;
    OrDisjoint(l % 2, 2 * (u % 2), u % 2, 1);
  }

  /** The pixels of row `row` of a tile, leftmost first (the value `row` returns). */
  function RowPixels(tile: TileData, row: nat): (r: seq<u8>)
    requires row < 8
    ensures |r| == TILE_WIDTH
    ensures forall i :: 0 <= i < TILE_WIDTH ==>
      (r[i] <= 3 && r[i] == 2 * Bit(tile[2 * row + 1], 7 - i) + Bit(tile[2 * row], 7 - i))
  {
    seq(TILE_WIDTH, i requires 0 <= i < TILE_WIDTH => Pixel(tile[2 * row], tile[2 * row + 1], i))
  }

  /**
   * `Tile::row`: the loop over the eight pixels.  Rows past 7 are outside
   * the tile (the source indexes past its 16 bytes and panics).
   */
  method Row(tile: TileData, row: nat) returns (result: array<u8>)
    requires row < 8
    ensures fresh(result)
    ensures result[..] == RowPixels(tile, row)
  {
    var lb := tile[row * 2];
    var ub := tile[row * 2 + 1];
    result := new u8[TILE_WIDTH](_ => 0);
    for i := 0 to TILE_WIDTH
      invariant forall k :: 0 <= k < i ==> result[k] == Pixel(lb, ub, k)
    {
      result[i] := Pixel(lb, ub, i);
    }
  }

  /** `TileSet::tile(idx)`: bytes idx*16 .. idx*16+16 of the set. */
  function TileAt(tiles: TileSetData, idx: u8): (t: TileData)
    ensures forall k :: 0 <= k < TILE_SIZE ==> t[k] == tiles[TILE_SIZE * idx + k]
  {
    tiles[TILE_SIZE * idx..TILE_SIZE * idx + TILE_SIZE]
  }

  /** Every byte of a tile set belongs to exactly one tile: byte a is byte a % 16 of tile a / 16. */
  lemma TilesPartitionSet(tiles: TileSetData, a: nat)
    requires a < TILE_SET_SIZE
    ensures a / TILE_SIZE < 0x100
    ensures TileAt(tiles, a / TILE_SIZE)[a % TILE_SIZE] == tiles[a]
  {
  }

  /** Pixel values are two-bit colour numbers, and each bit comes from the matching byte. */
  lemma PixelFromBits(tile: TileData, row: nat, i: nat)
    requires row < 8 && i < TILE_WIDTH
    ensures RowPixels(tile, row)[i] / 2 == Bit(tile[2 * row + 1], 7 - i)
    ensures RowPixels(tile, row)[i] % 2 == Bit(tile[2 * row], 7 - i)
  {
  }
}
