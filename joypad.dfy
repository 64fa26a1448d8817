/**
 * The joypad (src/joypad_controller.rs): register P1 at 0xFF00.  The game
 * selects the button row (bit 5 clear) or the direction row (bit 4 clear)
 * and reads the selected row in the low nibble, where a pressed key reads
 * as 0.
 */
module Joypad {
  import opened Bits
  import opened Wrappers

  const P1: u16 := 0xFF00

  datatype JoypadInput = Up | Down | Left | Right | Start | Select | A | B

  /** A nibble whose bits 3..0 are the four flags. */
  function Nibble(b3: bool, b2: bool, b1: bool, b0: bool): (r: u8)
    ensures r < 0x10
    ensures Bit(r, 3) == (if b3 then 1 else 0) && Bit(r, 2) == (if b2 then 1 else 0)
    ensures Bit(r, 1) == (if b1 then 1 else 0) && Bit(r, 0) == (if b0 then 1 else 0)
  {
    var d3, d2, d1, d0 := (if b3 then 1 else 0), (if b2 then 1 else 0), (if b1 then 1 else 0), (if b0 then 1 else 0);
    var h2 := 2 * d3 + d2;
    var h1 := 2 * h2 + d1;
    var r := 2 * h1 + d0;
    assert r / 2 == h1 && r % 2 == d0;
    assert h1 / 2 == h2 && h1 % 2 == d1;
    assert h2 / 2 == d3 && h2 % 2 == d2;
    assert Bit(r, 1) == Bit(h1, 0);
    assert Bit(r, 2) == Bit(h1, 1) == Bit(h2, 0);
    assert Bit(r, 3) == Bit(h1, 2) == Bit(h2, 1) == Bit(d3, 0);
    r
  }

  /** The button row: Start, Select, B and A on bits 3..0, set while released. */
  function ButtonNib(pressed: seq<JoypadInput>): u8
  {
    Nibble(Start !in pressed, Select !in pressed, B !in pressed, A !in pressed)
  }

  /** The direction row: Down, Up, Left and Right on bits 3..0, set while released. */
  function DirectionNib(pressed: seq<JoypadInput>): u8
  {
    Nibble(Down !in pressed, Up !in pressed, Left !in pressed, Right !in pressed)
  }

  /** `x & 0x30`, written as `((x >> 4) & 3) << 4`: bits 4 and 5 of a byte, in place. */
  function SelectBits(x: u8): (r: u8)
    ensures r % 0x10 == 0 && r / 0x10 == x / 0x10 % 4
    ensures Bit(r, 4) == Bit(x, 4) && Bit(r, 5) == Bit(x, 5)
  {
    var y := x / 16;
    var r := (y % 4) * 16;
    DivUnique(r, 16, y % 4, 0);
    SmallPow2(4);
    BitShr(x, 4, 0);
    BitShr(x, 4, 1);
    BitShr(r, 4, 0);
    BitShr(r, 4, 1);
    DivUnique(y, 4, y / 4, y % 4);
    DivUnique(y, 2, 2 * (y / 4) + (y % 4) / 2, y % 2);
    DivUnique(y % 4, 2, (y % 4) / 2, y % 2);
    DivUnique(r / 16, 2, (y % 4) / 2, y % 2);
    r
  }

  /** `current_nib`: the button row if bit 5 is clear, else the direction row if bit 4 is clear, else 0xF. */
  function CurrentNib(p1: u8, buttonNib: u8, directionNib: u8): u8
  {
    if Bit(p1, 5) == 0 then buttonNib
    else if Bit(p1, 4) == 0 then directionNib
    else 0xF
  }

  /** A read of P1, `(0x30 & p1) | current_nib`: the row in bits 0-3, the select bits 4-5 in place, and 0 above. */
  function ReadP1(p1: u8, nib: u8): (r: u8)
    requires nib < 0x10
    ensures r % 0x10 == nib && r / 0x10 == p1 / 0x10 % 4
  {
    var sel := SelectBits(p1);
    SmallPow2(4);
    OrDisjoint(nib, sel, sel / 16, 4);
    DivUnique(sel + nib, 16, sel / 16, nib);
    Or(sel, nib)
  }

  /** A key shows as 0 in its row exactly when it is pressed. */
  lemma PressedReadsZero(pressed: seq<JoypadInput>)
    ensures Bit(ButtonNib(pressed), 3) == 0 <==> Start in pressed
    ensures Bit(ButtonNib(pressed), 2) == 0 <==> Select in pressed
    ensures Bit(ButtonNib(pressed), 1) == 0 <==> B in pressed
    ensures Bit(ButtonNib(pressed), 0) == 0 <==> A in pressed
    ensures Bit(DirectionNib(pressed), 3) == 0 <==> Down in pressed
    ensures Bit(DirectionNib(pressed), 2) == 0 <==> Up in pressed
    ensures Bit(DirectionNib(pressed), 1) == 0 <==> Left in pressed
    ensures Bit(DirectionNib(pressed), 0) == 0 <==> Right in pressed
  {
  }

  class JoypadController {
    var p1: u8
    var directionNib: u8
    var buttonNib: u8

    /** Both rows are nibbles. */
    ghost predicate Valid()
      reads this
    {
      buttonNib < 0x10 && directionNib < 0x10
    }

    /** `new`: both rows released, and P1 0x3F, so a read before any write gives 0x3F. */
    constructor ()
      ensures Valid() && p1 == 0x3F && directionNib == 0xF && buttonNib == 0xF
      ensures Get8(P1) == Some(0x3F)
    {
      p1, directionNib, buttonNib := 0x3F, 0xF, 0xF;
      assert Bit(0x3F, 5) == 1 && Bit(0x3F, 4) == 1;
    }

    /** `set_pressed`: rebuilds both rows, each from zero with one `|=` per released key. */
    method SetPressed(pressed: seq<JoypadInput>)
      modifies this
      ensures Valid()
      ensures buttonNib == ButtonNib(pressed) && directionNib == DirectionNib(pressed) && p1 == old(p1)
    {
      buttonNib := Row(Start !in pressed, Select !in pressed, B !in pressed, A !in pressed);
      directionNib := Row(Down !in pressed, Up !in pressed, Left !in pressed, Right !in pressed);
    }

    /** One row of `set_pressed`: bit 3, 2, 1 and 0 are ORed in for the keys that are released. */
    static method Row(released3: bool, released2: bool, released1: bool, released0: bool) returns (nib: u8)
      ensures nib == Nibble(released3, released2, released1, released0)
    {
      SmallPow2(1); SmallPow2(2); SmallPow2(3);
      var d3, d2, d1 := (if released3 then 1 else 0), (if released2 then 1 else 0), (if released1 then 1 else 0);
      nib := 0;
      if released3 {
        nib := Or(nib, 8);
      }
      OrDisjoint(4, nib, d3, 3);
      if released2 {
        nib := Or(nib, 4);
      }
      assert nib == 4 * (2 * d3 + d2);
      OrDisjoint(2, nib, 2 * d3 + d2, 2);
      if released1 {
        nib := Or(nib, 2);
      }
      assert nib == 2 * (2 * (2 * d3 + d2) + d1);
      OrDisjoint(1, nib, 2 * (2 * d3 + d2) + d1, 1);
      if released0 {
        nib := Or(nib, 1);
      }
    }

    /** `get8`: P1 with the selected row in the low nibble; `None` where the source panics. */
    function Get8(addr: u16): (r: Option<u8>)
      requires Valid()
      reads this
      ensures r.Some? <==> addr == P1
      ensures r.Some? ==> r.value % 0x10 == CurrentNib(p1, buttonNib, directionNib) && r.value / 0x10 == p1 / 0x10 % 4
    {
      if addr == P1 then Some(ReadP1(p1, CurrentNib(p1, buttonNib, directionNib))) else None
    }

    /** `set8`: only the select bits 4 and 5 of a P1 write are kept. */
    method Set8(addr: u16, byte: u8) returns (ok: bool)
      requires Valid()
      modifies this
      ensures Valid()
      ensures ok <==> addr == P1
      ensures p1 == (if ok then SelectBits(byte) else old(p1))
      ensures buttonNib == old(buttonNib) && directionNib == old(directionNib)
    {
      if addr != P1 {
        return false;
      }
      p1 := SelectBits(byte);
      ok := true;
    }
  }

  /**
   * Selecting a row through P1 and reading it back gives that row: with
   * bit 5 written as 0 the buttons, with bit 5 as 1 and bit 4 as 0 the
   * directions, and with both set 0xF.
   */
  lemma SelectThenRead(byte: u8, pressed: seq<JoypadInput>)
    ensures var p1 := SelectBits(byte);
      ReadP1(p1, CurrentNib(p1, ButtonNib(pressed), DirectionNib(pressed))) % 0x10 ==
        if Bit(byte, 5) == 0 then ButtonNib(pressed)
        else if Bit(byte, 4) == 0 then DirectionNib(pressed)
        else 0xF
  {
  }
}
