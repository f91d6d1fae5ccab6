/**
 * The board layout of the view: a square board fitted into a viewport of a given
 * width and height, keeping at least a fifth of the width as padding on each side.
 * The source computes in f64; this model uses exact reals.
 */
module Layout {

  /** The board's side length and its offsets from the viewport's left and top edges. */
  datatype BoardRect = BoardRect(boardSize: real, xPadding: real, yPadding: real)

  function Min(a: real, b: real): real {
    if a <= b then a else b
  }

  /**
   * The reference layout: the larger of the two candidate squares that fit, the one
   * three fifths of the width wide and the one as tall as the viewport, centred in
   * both directions.
   */
  function CentredSquare(width: real, height: real): (r: BoardRect)
    ensures r.boardSize <= height && r.boardSize <= width - 2.0 * (width / 5.0)
  {
    var size := Min(width - 2.0 * (width / 5.0), height);
    BoardRect(size, (width - size) / 2.0, (height - size) / 2.0)
  }

  /** The board lies inside the viewport [0, width] x [0, height]. */
  predicate FitsViewport(r: BoardRect, width: real, height: real) {
    r.xPadding >= 0.0 && r.yPadding >= 0.0 &&
    r.xPadding + r.boardSize <= width && r.yPadding + r.boardSize <= height
  }

  /**
   * View::calculate_size on a viewport of the given size. Whatever the size, the board
   * is centred horizontally and vertically and no taller than the viewport, and either
   * the padding is the minimum fifth of the width or the board has the viewport's full
   * height; for a positive size the board lies inside the viewport.
   */
  function CalculateSize(width: real, height: real): (r: BoardRect)
    ensures 2.0 * r.xPadding + r.boardSize == width
    ensures 2.0 * r.yPadding + r.boardSize == height
    ensures r.boardSize <= height
    ensures r.xPadding == width / 5.0 || r.boardSize == height
    ensures width > 0.0 && height > 0.0 ==> FitsViewport(r, width, height) && r.boardSize > 0.0
  {
    var minPadding := width / 5.0;
    if width - minPadding * 2.0 <= height then
      var boardSize := width - 2.0 * minPadding;
      BoardRect(boardSize, minPadding, (height - boardSize) / 2.0)
    else
      BoardRect(height, (width - height) / 2.0, 0.0)
  }

  /**
   * calculate_size's two branches amount to one rule: the board is the larger square
   * that leaves the minimum padding and fits the height, centred in both directions.
   */
  lemma CalculateSizeIsCentredSquare(width: real, height: real)
    ensures CalculateSize(width, height) == CentredSquare(width, height)
  {
    var minPadding := width / 5.0;
    if width - minPadding * 2.0 <= height {
      assert Min(width - 2.0 * (width / 5.0), height) == width - 2.0 * minPadding;
    } else {
      assert Min(width - 2.0 * (width / 5.0), height) == height;
    }
  }

  /**
   * No square board that keeps the minimum padding and fits the viewport's height is
   * larger than the one calculate_size picks.
   */
  lemma CalculateSizeIsLargest(width: real, height: real, size: real)
    requires size <= height && size <= width - 2.0 * (width / 5.0)
    ensures size <= CalculateSize(width, height).boardSize
  {
    CalculateSizeIsCentredSquare(width, height);
  }
}
