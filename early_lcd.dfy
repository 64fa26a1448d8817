/**
 * The early LCD controller (src/lcd_controller.rs): 8K of video RAM, a
 * frame buffer of colours and the twelve LCD registers.  Only VRAM, BGP,
 * SCY and LCDC can be written and only VRAM and LY can be read; every other
 * address panics, which the model reports as a failure.
 */
module EarlyLcd {
  import opened Bits
  import opened Wrappers
  import opened Hardware
  import opened Mapping

  const VRAM_START: u16 := 0x8000
  const VRAM_SIZE: nat := 0x2000
  const VRAM_END: u16 := 0x9FFF
  const LCDC: u16 := 0xFF40
  const SCY: u16 := 0xFF42
  const LY: u16 := 0xFF44
  const BGP: u16 := 0xFF47
  const WX: u16 := 0xFF4B
  const FRAME_SIZE: nat := GAME_WIDTH * GAME_HEIGHT

  /** `mapped_areas`: VRAM, and the registers LCDC..WX. */
  function MappedAreas(): (r: seq<MappedArea>)
    ensures |r| == 2 && AllFit(r)
    ensures r[0].start as int + r[0].len - 1 == VRAM_END
    ensures r[1].start == LCDC && r[1].start as int + r[1].len - 1 == WX
  {
    [MappedArea(VRAM_START, VRAM_SIZE), MappedArea(LCDC, (WX - LCDC + 1) as nat)]
  }

  /** The `bN!(x)` macros: `(x >> N) & 1`. */
  function B(n: nat, x: u8): (r: nat)
    ensures r == Bit(x, n)
  {
    BitShr(x, n, 0);
    (x / Pow2(n)) % 2
  }

  predicate IsVram(addr: u16)
  {
    VRAM_START <= addr <= VRAM_END
  }

  /** The LCDC branch of `set8`: the display is switched on when bit 0 goes from 0 to 1. */
  predicate SwitchesOn(lcdc: u8, byte: u8)
  {
    B(0, lcdc) == 0 && B(0, byte) == 1
  }

  /** The addresses `set8` accepts. */
  predicate Writable(addr: u16)
  {
    IsVram(addr) || addr == BGP || addr == SCY || addr == LCDC
  }

  /** The addresses `get8` accepts. */
  predicate Readable(addr: u16)
  {
    IsVram(addr) || addr == LY
  }

  /** The frame buffer a `set8(LCDC, byte)` leaves behind. */
  function FrameAfterLcdc(frame: seq<Color>, lcdc: u8, byte: u8): (r: seq<Color>)
    ensures |r| == |frame|
    ensures SwitchesOn(lcdc, byte) ==> forall i :: 0 <= i < |r| ==> r[i] == White
    ensures !SwitchesOn(lcdc, byte) ==> r == frame
  {
    if SwitchesOn(lcdc, byte) then seq(|frame|, _ => White) else frame
  }

  /** Switching on twice in a row only whitens the buffer once: the second write sees bit 0 already set. */
  lemma SecondSwitchOnKeepsFrame(frame: seq<Color>, lcdc: u8, byte: u8)
    requires SwitchesOn(lcdc, byte)
    ensures !SwitchesOn(byte, byte)
    ensures FrameAfterLcdc(FrameAfterLcdc(frame, lcdc, byte), byte, byte) == FrameAfterLcdc(frame, lcdc, byte)
  {
  }

  class LcdController {
    const vram: array<u8>
    const frameBuffer: array<Color>
    var lcdc: u8
    var stat: u8
    var scy: u8
    var scx: u8
    var ly: u8
    var lyc: u8
    var dma: u8
    var bgp: u8
    var obp0: u8
    var obp1: u8
    var wy: u8
    var wx: u8

    ghost predicate Valid()
      reads this
    {
      vram.Length == VRAM_SIZE && frameBuffer.Length == FRAME_SIZE
    }

    /** `new`: zeroed VRAM and registers, and a frame buffer of `Off`. */
    constructor ()
      ensures Valid() && fresh(vram) && fresh(frameBuffer)
      ensures vram[..] == seq(VRAM_SIZE, _ => 0)
      ensures frameBuffer[..] == seq(FRAME_SIZE, _ => Off)
      ensures lcdc == stat == scy == scx == ly == lyc == dma == bgp == obp0 == obp1 == wy == wx == 0
    {
      vram := new u8[VRAM_SIZE](_ => 0);
      frameBuffer := new Color[FRAME_SIZE](_ => Off);
      lcdc, stat, scy, scx, ly, lyc := 0, 0, 0, 0, 0, 0;
      dma, bgp, obp0, obp1, wy, wx := 0, 0, 0, 0, 0, 0;
    }

    /** `get8`: a VRAM byte or LY; `None` where the source panics. */
    function Get8(addr: u16): (r: Option<u8>)
      requires Valid()
      reads this, vram
      ensures r.Some? <==> Readable(addr)
      ensures IsVram(addr) ==> r == Some(vram[addr - VRAM_START])
      ensures addr == LY ==> r == Some(ly)
    {
      if IsVram(addr) then Some(vram[addr - VRAM_START])
      else if addr == LY then Some(ly)
      else None
    }

    /** `get_slice` always panics. */
    function GetSlice(addr: u16, size: nat): (r: Option<seq<u8>>)
      ensures r.None?
    {
      None
    }

    /** Fills the frame buffer with `White`, as the loop in the LCDC branch does. */
    method ClearFrame()
      requires Valid()
      modifies frameBuffer
      ensures forall i :: 0 <= i < frameBuffer.Length ==> frameBuffer[i] == White
    {
      for p := 0 to frameBuffer.Length
        invariant forall i :: 0 <= i < p ==> frameBuffer[i] == White
      {
        frameBuffer[p] := White;
      }
    }

    /**
     * `set8`: stores a VRAM byte, BGP, SCY or LCDC; an LCDC write that
     * switches the display on first whitens the frame buffer.  `ok` is
     * false where the source panics, and then nothing changes.
     */
    method Set8(addr: u16, byte: u8) returns (ok: bool)
      requires Valid()
      modifies this, vram, frameBuffer
      ensures ok <==> Writable(addr)
      ensures Valid()
      ensures IsVram(addr) ==> vram[..] == old(vram[..])[addr - VRAM_START := byte]
      ensures !IsVram(addr) ==> vram[..] == old(vram[..])
      ensures addr == LCDC ==> frameBuffer[..] == FrameAfterLcdc(old(frameBuffer[..]), old(lcdc), byte)
      ensures addr != LCDC ==> frameBuffer[..] == old(frameBuffer[..])
      ensures lcdc == (if addr == LCDC then byte else old(lcdc))
      ensures bgp == (if addr == BGP then byte else old(bgp))
      ensures scy == (if addr == SCY then byte else old(scy))
      ensures stat == old(stat) && scx == old(scx) && ly == old(ly) && lyc == old(lyc) && dma == old(dma)
      ensures obp0 == old(obp0) && obp1 == old(obp1) && wy == old(wy) && wx == old(wx)
      ensures IsVram(addr) ==> Get8(addr) == Some(byte)
    {
      if IsVram(addr) {
        vram[addr - VRAM_START] := byte;
        return true;
      } else if addr == BGP {
        bgp := byte;
        return true;
      } else if addr == SCY {
        scy := byte;
        return true;
      } else if addr == LCDC {
        if SwitchesOn(lcdc, byte) {
          ClearFrame();
          assert frameBuffer[..] == seq(FRAME_SIZE, _ => White);
        }
        lcdc := byte;
        return true;
      }
      return false;
    }
  }
}
