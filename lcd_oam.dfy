/**
 * Sprites (src/lcd/oam.rs): object attribute memory holds 40 entries of four
 * bytes (y, x, tile number, flags).  A screen line shows at most the first
 * ten entries whose rows cover it; where sprites overlap, the earlier entry
 * wins, and pixel value 0 is transparent.
 */
module LcdOam {
  import opened Bits
  import opened Hardware
  import opened Wrappers
  import opened LcdTiles

  const OAM_ENTRIES: nat := 40
  const ENTRY_SIZE: nat := 4
  const OAM_SIZE: nat := 0xA0
  const MAX_SPRITES_PER_LINE: nat := 10

  datatype SpriteSize = EightByEight | EightBySixteen
  datatype VRamBank = Bank0 | Bank1

  datatype OamEntry = OamEntry(x: u8, y: u8, tileNum: u8, height: u8, aboveBackground: bool,
                               yFlip: bool, xFlip: bool, paletteNumber: u8, vramBank: VRamBank)

  /** One sprite pixel: its colour number, its priority and its palette. */
  datatype OamPixel = OamPixel(value: u8, aboveBackground: bool, paletteNumber: u8)

  /** `bN!(x)`: `(x >> N) & 1`. */
  function FlagBit(x: u8, n: nat): (b: nat)
    ensures b == Bit(x, n)
  {
    BitShr(x, n, 0);
    (x / Pow2(n)) % 2
  }

  /**
   * `OamEntry::new`: y and x from bytes 0 and 1; the tile number from byte 2,
   * with bit 0 cleared for 8x16 sprites; and the flags of byte 3.
   */
  function NewEntry(mode: Mode, data: seq<u8>, size: SpriteSize): (e: OamEntry)
    requires |data| == ENTRY_SIZE
    ensures e.y == data[0] && e.x == data[1]
    ensures e.height == (if size == EightByEight then 8 else 16)
    ensures size == EightByEight ==> e.tileNum == data[2]
    ensures size == EightBySixteen ==> e.tileNum % 2 == 0 && e.tileNum / 2 == data[2] / 2
    ensures e.aboveBackground <==> Bit(data[3], 7) == 0
    ensures e.yFlip <==> Bit(data[3], 6) == 1
    ensures e.xFlip <==> Bit(data[3], 5) == 1
    ensures e.vramBank == (if Bit(data[3], 3) == 0 then Bank0 else Bank1)
    ensures mode == DMG ==> e.paletteNumber == Bit(data[3], 4)
    ensures mode == CGB ==> e.paletteNumber == data[3] % 8
  {
    var height: u8 := if size == EightByEight then 8 else 16;
    var flags := data[3];
    DivUnique(data[2] - data[2] % 2, 2, data[2] / 2, 0);
    OamEntry(
      x := data[1],
      y := data[0],
      vramBank := if FlagBit(flags, 3) == 0 then Bank0 else Bank1,
      tileNum := if height == 8 then data[2] else data[2] - data[2] % 2,
      height := height,
      aboveBackground := FlagBit(flags, 7) == 0,
      yFlip := FlagBit(flags, 6) == 1,
      xFlip := FlagBit(flags, 5) == 1,
      paletteNumber := match mode
        case DMG => FlagBit(flags, 4)
        case CGB => flags % 8)
  }

  /** An entry as `new` makes it: a height of 8 or 16, and an even tile number for 8x16 sprites. */
  predicate WellFormed(e: OamEntry)
  {
    (e.height == 8 || e.height == 16) && (e.height == 16 ==> e.tileNum % 2 == 0)
  }

  /**
   * `is_on_row(ly)`: `ly + 16 >= y && ly + 16 < y + height`, both sums done
   * in eight bits.
   */
  function IsOnRow(e: OamEntry, ly: u8): (r: bool)
    ensures ly < 240 && e.y as int + e.height < 0x100 ==> (r <==> e.y <= ly + 16 < e.y + e.height)
  {
    Wrap8(ly + 16) >= e.y && Wrap8(ly + 16) < Wrap8(e.y + e.height)
  }

  /** The line of the sprite that screen line `ly` shows, 0 at the sprite's top: always below its height. */
  function TileY(e: OamEntry, ly: u8): (d: nat)
    requires IsOnRow(e, ly)
    ensures d < e.height && e.y as int + e.height < 0x100
  {
    Wrap8(ly + 16) - e.y
  }

  /** The tile set of the entry's VRAM bank. */
  function BankTiles(e: OamEntry, tiles0: TileSetData, tiles1: TileSetData): TileSetData
  {
    match e.vramBank
    case Bank0 => tiles0
    case Bank1 => tiles1
  }

  function Reverse(s: seq<u8>): (r: seq<u8>)
    ensures |r| == |s| && forall i :: 0 <= i < |s| ==> r[i] == s[|s| - 1 - i]
  {
    seq(|s|, i requires 0 <= i < |s| => s[|s| - 1 - i])
  }

  /** The sprite line `line` (0 at the top) of an unflipped entry: the first tile for lines 0-7, the next tile below. */
  function SpriteLine(e: OamEntry, tiles: TileSetData, line: nat): (r: seq<u8>)
    requires line < 16
    ensures |r| == TILE_WIDTH
  {
    if line < 8 then RowPixels(TileAt(tiles, e.tileNum), line)
    else RowPixels(TileAt(tiles, Wrap8(e.tileNum + 1)), line % 8)
  }

  /**
   * `row(ly, ...)`: the eight pixels the entry shows on line `ly`, from the
   * tile set of its bank, mirrored vertically for `y_flip` and horizontally
   * for `x_flip`.
   */
  function EntryRow(e: OamEntry, ly: u8, tiles0: TileSetData, tiles1: TileSetData): (r: seq<u8>)
    requires IsOnRow(e, ly) && WellFormed(e)
    ensures |r| == TILE_WIDTH
  {
    var row := UnflippedRow(e, ly, tiles0, tiles1);
    if e.xFlip then Reverse(row) else row
  }

  /** The row before `x_flip` is applied: the sprite line `ly` falls on, counted from the bottom for `y_flip`. */
  function UnflippedRow(e: OamEntry, ly: u8, tiles0: TileSetData, tiles1: TileSetData): (r: seq<u8>)
    requires IsOnRow(e, ly) && WellFormed(e)
    ensures |r| == TILE_WIDTH
  {
    var tileY := TileY(e, ly);
    var line: nat := if e.yFlip then e.height - 1 - tileY else tileY;
    SpriteLine(e, BankTiles(e, tiles0, tiles1), line)
  }

  /** `x_flip` mirrors the row: pixel i of a flipped entry is pixel 7 - i of the same entry unflipped. */
  lemma XFlipMirrors(e: OamEntry, ly: u8, tiles0: TileSetData, tiles1: TileSetData, i: nat)
    requires IsOnRow(e, ly) && WellFormed(e) && e.xFlip && i < TILE_WIDTH
    ensures EntryRow(e, ly, tiles0, tiles1)[i] == EntryRow(e.(xFlip := false), ly, tiles0, tiles1)[7 - i]
  {
    var plain := e.(xFlip := false);
    assert TileY(plain, ly) == TileY(e, ly);
    assert BankTiles(plain, tiles0, tiles1) == BankTiles(e, tiles0, tiles1);
    var row := UnflippedRow(e, ly, tiles0, tiles1);
    assert UnflippedRow(plain, ly, tiles0, tiles1) == row;
    assert EntryRow(e, ly, tiles0, tiles1) == Reverse(row);
  }

  /** `y_flip` mirrors the sprite: line d of a flipped entry is line height - 1 - d of the entry unflipped. */
  lemma YFlipMirrors(e: OamEntry, ly: u8, tiles0: TileSetData, tiles1: TileSetData)
    requires IsOnRow(e, ly) && WellFormed(e) && e.yFlip && !e.xFlip
    ensures EntryRow(e, ly, tiles0, tiles1) == SpriteLine(e, BankTiles(e, tiles0, tiles1), e.height - 1 - TileY(e, ly))
    ensures EntryRow(e.(yFlip := false), ly, tiles0, tiles1) == SpriteLine(e, BankTiles(e, tiles0, tiles1), TileY(e, ly))
  {
    var plain := e.(yFlip := false);
    assert TileY(plain, ly) == TileY(e, ly);
    assert BankTiles(plain, tiles0, tiles1) == BankTiles(e, tiles0, tiles1);
    assert SpriteLine(plain, BankTiles(e, tiles0, tiles1), TileY(e, ly)) == SpriteLine(e, BankTiles(e, tiles0, tiles1), TileY(e, ly));
  }

  /** `OamEntries::new`: the 40 entries decoded from OAM, over the tile sets of the two VRAM banks. */
  datatype OamEntries = OamEntries(entries: seq<OamEntry>, tileSet0: TileSetData, tileSet1: TileSetData)

  function NewEntries(mode: Mode, oam: seq<u8>, tileSet0: TileSetData, tileSet1: TileSetData, size: SpriteSize): (r: OamEntries)
    requires |oam| == OAM_SIZE
    ensures |r.entries| == OAM_ENTRIES
    ensures forall i :: 0 <= i < OAM_ENTRIES ==> r.entries[i] == NewEntry(mode, oam[ENTRY_SIZE * i..ENTRY_SIZE * i + ENTRY_SIZE], size)
    ensures forall i :: 0 <= i < OAM_ENTRIES ==> WellFormed(r.entries[i])
  {
    var entries := seq(OAM_ENTRIES, i requires 0 <= i < OAM_ENTRIES => NewEntry(mode, oam[ENTRY_SIZE * i..ENTRY_SIZE * i + ENTRY_SIZE], size));
    OamEntries(entries, tileSet0, tileSet1)
  }

  predicate AllWellFormed(entries: seq<OamEntry>)
  {
    forall k :: 0 <= k < |entries| ==> WellFormed(entries[k])
  }

  /** The entries on line `ly`, in OAM order. */
  function OnRow(entries: seq<OamEntry>, ly: u8): (r: seq<OamEntry>)
    ensures |r| <= |entries|
    ensures forall k :: 0 <= k < |r| ==> IsOnRow(r[k], ly)
    ensures AllWellFormed(entries) ==> AllWellFormed(r)
  {
    if entries == [] then []
    else if IsOnRow(entries[0], ly) then [entries[0]] + OnRow(entries[1..], ly)
    else OnRow(entries[1..], ly)
  }

  /** `OnRow` keeps exactly the entries on the line, in order: an entry is kept iff it is on the line. */
  lemma {:induction false} OnRowKeeps(entries: seq<OamEntry>, ly: u8, e: OamEntry)
    ensures e in OnRow(entries, ly) <==> e in entries && IsOnRow(e, ly)
  {
    if entries != [] {
      OnRowKeeps(entries[1..], ly, e);
      assert e in entries <==> e == entries[0] || e in entries[1..];
    }
  }

  /** `filter(is_on_row).take(10)`: the first ten entries on the line. */
  function Visible(entries: seq<OamEntry>, ly: u8): (r: seq<OamEntry>)
    ensures |r| <= MAX_SPRITES_PER_LINE && |r| <= |OnRow(entries, ly)|
    ensures |OnRow(entries, ly)| >= MAX_SPRITES_PER_LINE ==> |r| == MAX_SPRITES_PER_LINE
    ensures |OnRow(entries, ly)| < MAX_SPRITES_PER_LINE ==> r == OnRow(entries, ly)
    ensures r == OnRow(entries, ly)[..|r|]
    ensures AllOnRow(r, ly) || !AllWellFormed(entries)
  {
    var all := OnRow(entries, ly);
    if |all| <= MAX_SPRITES_PER_LINE then all else all[..MAX_SPRITES_PER_LINE]
  }

  /** The entry's pixel at screen column x (see `HitMeaning`). */
  function Hit(oe: OamEntries, e: OamEntry, ly: u8, x: int): Option<OamPixel>
    requires IsOnRow(e, ly) && WellFormed(e)
  {
    HitIn(e, EntryRow(e, ly, oe.tileSet0, oe.tileSet1), x)
  }

  function HitIn(e: OamEntry, row: seq<u8>, x: int): Option<OamPixel>
    requires |row| == TILE_WIDTH
  {
    var idx := x - (e.x - 8);
    if 0 <= idx < TILE_WIDTH && row[idx] != 0 then Some(OamPixel(row[idx], e.aboveBackground, e.paletteNumber)) else None
  }

  /**
   * An entry covers screen columns x - 8 .. x - 1, pixel idx at column
   * (x - 8) + idx; a pixel of value 0 is transparent and any other shows,
   * with the entry's priority and palette.
   */
  lemma HitMeaning(oe: OamEntries, e: OamEntry, ly: u8, col: int)
    requires IsOnRow(e, ly) && WellFormed(e)
    ensures var idx := col - (e.x - 8); var row := EntryRow(e, ly, oe.tileSet0, oe.tileSet1);
      Hit(oe, e, ly, col).Some? <==> (0 <= idx < TILE_WIDTH && row[idx] != 0)
    ensures var idx := col - (e.x - 8); var row := EntryRow(e, ly, oe.tileSet0, oe.tileSet1);
      Hit(oe, e, ly, col).Some? ==> Hit(oe, e, ly, col).value == OamPixel(row[idx], e.aboveBackground, e.paletteNumber)
  {
    assert Hit(oe, e, ly, col) == HitIn(e, EntryRow(e, ly, oe.tileSet0, oe.tileSet1), col);
  }

  function Merge(earlier: Option<OamPixel>, later: Option<OamPixel>): Option<OamPixel>
  {
    if earlier.Some? then earlier else later
  }

  predicate AllOnRow(vis: seq<OamEntry>, ly: u8)
  {
    forall k :: 0 <= k < |vis| ==> IsOnRow(vis[k], ly) && WellFormed(vis[k])
  }

  /** The pixel at column x after drawing the entries `vis` in order, each only where nothing is drawn yet. */
  function FirstHit(oe: OamEntries, vis: seq<OamEntry>, ly: u8, x: int): Option<OamPixel>
    requires AllOnRow(vis, ly)
  {
    if vis == [] then None
    else Merge(FirstHit(oe, vis[..|vis| - 1], ly, x), Hit(oe, vis[|vis| - 1], ly, x))
  }

  /** Where no entry has a non-transparent pixel, nothing is drawn. */
  lemma {:induction false} FirstHitNone(oe: OamEntries, vis: seq<OamEntry>, ly: u8, x: int)
    requires AllOnRow(vis, ly)
    requires forall k :: 0 <= k < |vis| ==> Hit(oe, vis[k], ly, x).None?
    ensures FirstHit(oe, vis, ly, x).None?
  {
    if vis != [] {
      FirstHitNone(oe, vis[..|vis| - 1], ly, x);
    }
  }

  /** The pixel drawn is that of the earliest entry with a non-transparent pixel there: later entries never overwrite it. */
  lemma {:induction false} FirstHitEarliest(oe: OamEntries, vis: seq<OamEntry>, ly: u8, x: int, k: nat)
    requires AllOnRow(vis, ly) && k < |vis|
    requires Hit(oe, vis[k], ly, x).Some?
    requires forall j :: 0 <= j < k ==> Hit(oe, vis[j], ly, x).None?
    ensures FirstHit(oe, vis, ly, x) == Hit(oe, vis[k], ly, x)
  {
    var init := vis[..|vis| - 1];
    if k == |vis| - 1 {
      FirstHitNone(oe, init, ly, x);
    } else {
      FirstHitEarliest(oe, init, ly, x, k);
    }
  }

  /** One entry's drawing: its eight columns, skipping those left of the screen and stopping at the right edge. */
  method Draw(result: array<Option<OamPixel>>, e: OamEntry, tileRow: seq<u8>)
    requires result.Length == GAME_WIDTH && |tileRow| == TILE_WIDTH
    modifies result
    ensures forall x :: 0 <= x < GAME_WIDTH ==> result[x] == Merge(old(result[x]), HitIn(e, tileRow, x))
  {
    var left := e.x as int - 8;
    var idx := 0;
    while idx < TILE_WIDTH && left + idx < GAME_WIDTH
      invariant 0 <= idx <= TILE_WIDTH
      invariant forall x :: 0 <= x < GAME_WIDTH ==>
        result[x] == if x < left + idx then Merge(old(result[x]), HitIn(e, tileRow, x)) else old(result[x])
    {
      var pos := left + idx;
      if pos >= 0 && tileRow[idx] != 0 && result[pos].None? {
        result[pos] := Some(OamPixel(tileRow[idx], e.aboveBackground, e.paletteNumber));
      }
      idx := idx + 1;
    }
  }

  /**
   * `OamEntries::row(ly)`: each visible entry in order draws its pixels,
   * leaving transparent pixels and columns already drawn alone.
   */
  method Row(oe: OamEntries, ly: u8) returns (result: array<Option<OamPixel>>)
    requires AllWellFormed(oe.entries)
    ensures fresh(result) && result.Length == GAME_WIDTH
    ensures forall x :: 0 <= x < GAME_WIDTH ==> result[x] == FirstHit(oe, Visible(oe.entries, ly), ly, x)
  {
    result := new Option<OamPixel>[GAME_WIDTH](_ => None);
    var vis := Visible(oe.entries, ly);
    assert AllOnRow(vis, ly);
    for k := 0 to |vis|
      invariant AllOnRow(vis[..k], ly)
      invariant forall x :: 0 <= x < GAME_WIDTH ==> result[x] == FirstHit(oe, vis[..k], ly, x)
    {
      Draw(result, vis[k], EntryRow(vis[k], ly, oe.tileSet0, oe.tileSet1));
      FirstHitStep(oe, vis, ly, k);
    }
    assert vis[..|vis|] == vis;
  }

  /** Drawing one more entry: the first k + 1 entries give the first k merged with entry k. */
  lemma FirstHitStep(oe: OamEntries, vis: seq<OamEntry>, ly: u8, k: nat)
    requires AllOnRow(vis, ly) && k < |vis|
    ensures AllOnRow(vis[..k], ly) && AllOnRow(vis[..k + 1], ly)
    ensures forall x :: FirstHit(oe, vis[..k + 1], ly, x) == Merge(FirstHit(oe, vis[..k], ly, x), Hit(oe, vis[k], ly, x))
  {
    assert vis[..k + 1][..k] == vis[..k];
  }
}
