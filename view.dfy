/**
 * The View of gui/src/view.rs: its settings and piece textures, the loading of the
 * textures, and the render loop that turns the controller's state into draw calls.
 */
module BoardView {
  import opened Wrappers
  import opened Settings
  import opened Textures
  import opened Render

  class View {
    var settings: ViewSettings
    var textures: seq<Texture>

    constructor (settings: ViewSettings, textures: seq<Texture>)
      ensures this.settings == settings && this.textures == textures
    {
      this.settings := settings;
      this.textures := textures;
    }

    /**
     * View::create_textures: loads one texture per side and piece type, the sides
     * outermost, and returns them in load order.
     */
    static method CreateTextures() returns (textures: seq<Texture>)
      ensures textures == LoadOrder()
    {
      var colors := ColorNames;
      var pieceTypes := PieceTypeNames;
      textures := [];
      for ci := 0 to |colors|
        invariant textures == LoadOrder()[..6 * ci]
      {
        for pi := 0 to |pieceTypes|
          invariant textures == LoadOrder()[..6 * ci + pi]
        {
          var texture := Texture(TexturePath(colors[ci], pieceTypes[pi]));
          assert LoadOrder()[6 * ci + pi] == texture;
          textures := textures + [texture];
        }
      }
    }

    /**
     * View::render: clears the surface, draws the border and then, file by file and
     * rank by rank, each cell. It uses the settings' board size and padding, and the
     * draw calls it issues are exactly RenderOps; the view itself is left unchanged.
     */
    method Render(controller: Controller) returns (ops: seq<DrawOp>)
      requires PiecesCovered(controller, |textures|)
      ensures ops == RenderOps(settings, textures, controller)
    {
      var boardSize := settings.boardSize;
      var padding := settings.padding;

      ops := [Clear(settings.backgroundColor)];
      ops := ops + [Rect(settings.borderColor, Box(padding, 0.0, boardSize, boardSize))];
      ghost var header := ops;
      ghost var cells := Cells(settings, textures, controller);

      var cellSize := (boardSize - 4.0) / 8.0;
      ghost var k := 0;
      for x := 0 to 8
        invariant k == 8 * x
        invariant ops == header + Flatten(cells[..k])
      {
        for y := 0 to 8
          invariant k == 8 * x + y
          invariant ops == header + Flatten(cells[..k])
        {
          var cellOps := DrawCell(controller, cellSize, x, y);
          ghost var before := ops;
          ops := ops + cellOps;
          CellsExtend(settings, textures, controller, x, y, k, header, before, ops);
          k := k + 1;
        }
      }
      assert cells[..k] == cells;
    }

    /**
     * The body of render's loop for cell (x, y): the cell's rectangle in its
     * checkerboard colour, or the move colour when it is the selected square; an
     * ellipse when it is a current move; the piece's texture when it is occupied.
     */
    method DrawCell(controller: Controller, cellSize: real, x: int, y: int) returns (ops: seq<DrawOp>)
      requires OnBoard(x, y) && PiecesCovered(controller, |textures|)
      requires cellSize == CellSize(settings.boardSize)
      ensures ops == CellOps(settings, textures, controller, x, y)
    {
      var currentColor := if x % 2 != y % 2 then settings.blackColor else settings.whiteColor;
      if controller.selectedSquare.Some? {
        var selected := controller.selectedSquare.value;
        if selected.0 == x && selected.1 == y {
          currentColor := settings.moveColor;
        }
      }

      var xPos := settings.padding + 2.0 + cellSize * x as real;
      var yPos := 2.0 + cellSize * (7.0 - y as real);
      var cell := Box(xPos, yPos, cellSize, cellSize);
      assert cell == CellBox(settings, x, y);

      ops := [Rect(currentColor, cell)];

      if controller.currentMoves.Some? && (x, y) in controller.currentMoves.value {
        ops := ops + [Ellipse(settings.moveColor, cell)];
      }

      var piece := controller.at(x, y);
      if !piece.Empty? {
        var index := if piece.color == White then piece.pieceType - 1 else piece.pieceType + 5;
        ops := ops + [Image(textures[index], cell)];
      }
    }
  }
}
