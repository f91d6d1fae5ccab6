/**
 * Colours and the view configuration of the board view (gui/src/view.rs).
 */
module Settings {

  /** An RGBA colour; components are the f32 values of the source, idealised as reals. */
  datatype Rgba = Rgba(r: real, g: real, b: real, a: real)

  const Color1: Rgba := Rgba(0.29, 0.39, 0.54, 1.0)
  const Color2: Rgba := Rgba(0.82, 0.87, 0.96, 1.0)
  const Color3: Rgba := Rgba(0.34, 0.31, 0.31, 1.0)
  const Color4: Rgba := Rgba(0.58, 0.59, 0.63, 1.0)
  const Color5: Rgba := Rgba(0.15, 0.12, 0.10, 1.0)

  /** True when every component lies in [0, 1]. */
  predicate InUnitRange(c: Rgba) {
    0.0 <= c.r <= 1.0 && 0.0 <= c.g <= 1.0 && 0.0 <= c.b <= 1.0 && 0.0 <= c.a <= 1.0
  }

  /** The renderer's configuration: the nominal board size and left padding, and five colours. */
  datatype ViewSettings = ViewSettings(
    boardSize: real,
    padding: real,
    backgroundColor: Rgba,
    borderColor: Rgba,
    whiteColor: Rgba,
    blackColor: Rgba,
    moveColor: Rgba)

  /**
   * The default configuration: a 640-unit board padded 192 units from the left edge.
   * Its three cell colours are pairwise distinct, so a selected square and a move
   * marker are always visible against both kinds of square, and every colour is a
   * valid RGBA value.
   */
  function DefaultSettings(): (s: ViewSettings)
    ensures s.boardSize == 640.0 && s.padding == 192.0
    ensures s.whiteColor != s.blackColor && s.moveColor != s.whiteColor && s.moveColor != s.blackColor
    ensures s.borderColor != s.backgroundColor
    ensures InUnitRange(s.backgroundColor) && InUnitRange(s.borderColor) && InUnitRange(s.whiteColor)
    ensures InUnitRange(s.blackColor) && InUnitRange(s.moveColor)
  {
    ViewSettings(
      boardSize := 640.0,
      padding := 192.0,
      backgroundColor := Color3,
      borderColor := Color5,
      whiteColor := Color1,
      blackColor := Color2,
      moveColor := Color4)
  }
}
