/**
 * Names shared by the whole emulator: the hardware model being emulated,
 * the screen size and the shades a pixel can take.  In the repository the
 * colours and the screen size live in src/renderer.rs; the `Mode` type is
 * imported from the top-level module, which does not declare it in the files
 * modelled here.
 */
module Hardware {
  /** Original Game Boy (DMG) or Game Boy Color (CGB). */
  datatype Mode = DMG | CGB

  datatype Color = White | LightGray | DarkGray | Black | Off

  const GAME_WIDTH: nat := 160
  const GAME_HEIGHT: nat := 144
}
