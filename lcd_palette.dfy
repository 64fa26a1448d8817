/**
 * The DMG palette (src/lcd/palette.rs): a palette register holds four
 * two-bit shade numbers, colour 0 in bits 0-1 up to colour 3 in bits 6-7.
 */
module LcdPalette {
  import opened Bits
  import opened Hardware

  /** `Palette::new(p)`: the register value, kept as it is. */
  datatype Palette = Palette(palette: u8)

  /** The shade a two-bit shade number names. */
  function Shade(idx: nat): (c: Color)
    requires idx < 4
    ensures c != Off
  {
    [White, LightGray, DarkGray, Black][idx]
  }

  /** The shade number of a shade; `Off` is not one of them. */
  function ShadeIndex(c: Color): nat
  {
    match c
    case White => 0
    case LightGray => 1
    case DarkGray => 2
    case Black => 3
    case Off => 0
  }

  /**
   * `color(b)`: the shade named by bits 2b..2b+1 of the palette.  A colour
   * number above 3 makes the source panic; callers only pass pixel values,
   * which are below 4.
   */
  function ColorOf(p: Palette, b: u8): (c: Color)
    requires b <= 3
    ensures c != Off
    ensures ShadeIndex(c) == (p.palette / Pow2(2 * b)) % 4
    ensures ShadeIndex(c) == 2 * Bit(p.palette, 2 * b + 1) + Bit(p.palette, 2 * b)
  {
    var shift: nat := 2 * b;
    ShiftedBits(p.palette, shift);
    Shade((p.palette / Pow2(shift)) % 4)
  }

  lemma ShiftedBits(x: nat, shift: nat)
    ensures x / Pow2(shift) >= 0
    ensures (x / Pow2(shift)) % 4 == 2 * Bit(x, shift + 1) + Bit(x, shift)
  {
    DivAtMost(x, Pow2(shift));
    BitShr(x, shift, 0);
    BitShr(x, shift, 1);
    var q: nat := x / Pow2(shift);
    var h := q / 2;
    assert Bit(q, 1) == h % 2;
    DivUnique(q, 4, h / 2, 2 * (h % 2) + q % 2);
  }

  /** The palette register that maps colour numbers 0-3 to the four given shades. */
  function Pack(c0: Color, c1: Color, c2: Color, c3: Color): u8
  {
    ShadeIndex(c0) + 4 * ShadeIndex(c1) + 16 * ShadeIndex(c2) + 64 * ShadeIndex(c3)
  }

  /** Two bits at a time: digit b of a base-4 number of four digits. */
  lemma Base4Digit(i0: nat, i1: nat, i2: nat, i3: nat, b: nat)
    requires i0 < 4 && i1 < 4 && i2 < 4 && i3 < 4 && b <= 3
    ensures ((i0 + 4 * i1 + 16 * i2 + 64 * i3) / Pow2(2 * b)) % 4 == [i0, i1, i2, i3][b]
  {
    var p := i0 + 4 * i1 + 16 * i2 + 64 * i3;
    SmallPow2(2 * b);
    if b == 0 {
      DivUnique(p, 4, i1 + 4 * i2 + 16 * i3, i0);
    } else if b == 1 {
      DivUnique(p, 4, i1 + 4 * i2 + 16 * i3, i0);
      DivUnique(i1 + 4 * i2 + 16 * i3, 4, i2 + 4 * i3, i1);
    } else if b == 2 {
      DivUnique(p, 16, i2 + 4 * i3, i0 + 4 * i1);
      DivUnique(i2 + 4 * i3, 4, i3, i2);
    } else {
      DivUnique(p, 64, i3, i0 + 4 * i1 + 16 * i2);
    }
  }

  lemma PackDigit(c0: Color, c1: Color, c2: Color, c3: Color, b: u8)
    requires b <= 3
    ensures (Pack(c0, c1, c2, c3) / Pow2(2 * b)) % 4 == ShadeIndex([c0, c1, c2, c3][b])
  {
    var indices := [ShadeIndex(c0), ShadeIndex(c1), ShadeIndex(c2), ShadeIndex(c3)];
    Base4Digit(indices[0], indices[1], indices[2], indices[3], b);
    assert indices[b] == ShadeIndex([c0, c1, c2, c3][b]);
  }

  /** A palette packed from four shades gives each shade back for its colour number. */
  lemma PackColors(c0: Color, c1: Color, c2: Color, c3: Color, b: u8)
    requires c0 != Off && c1 != Off && c2 != Off && c3 != Off && b <= 3
    ensures ColorOf(Palette(Pack(c0, c1, c2, c3)), b) == [c0, c1, c2, c3][b]
  {
    PackDigit(c0, c1, c2, c3, b);
    ShadeIndexInjective(ColorOf(Palette(Pack(c0, c1, c2, c3)), b), [c0, c1, c2, c3][b]);
  }

  lemma ShadeIndexInjective(c: Color, d: Color)
    requires c != Off && d != Off && ShadeIndex(c) == ShadeIndex(d)
    ensures c == d
  {
  }
}
