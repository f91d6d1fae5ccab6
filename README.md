# Chess GUI board view, modelled in Dafny

This project models the board view of a piston chess GUI (`gui/src/view.rs`). It covers four things:

- how `calculate_size` fits a square board into a viewport;
- the order in which `create_textures` loads the twelve piece images;
- the index arithmetic `render` uses to find a piece's image again;
- `render` itself, written as a method that builds the ordered sequence of draw operations it issues.

A draw operation is one of: clear, filled rectangle, ellipse, or image stretched over a box.
`render` is proved to issue exactly the sequence given by the specification function `Render.RenderOps`.
The lemmas then describe that sequence:

- its colours and positions;
- the order of its cells;
- its length;
- its agreement with the texture load order.

Modules, one per file:

- `Wrappers` (`wrappers.dfy`): `Option`.
- `Settings` (`settings.dfy`): colours and `ViewSettings` with its default.
- `Layout` (`layout.dfy`): `calculate_size`.
- `Textures` (`textures.dfy`): texture load order and texture index.
- `Render` (`render.dfy`): draw operations, the controller snapshot render reads, the specification of render, and its lemmas.
- `BoardView` (`view.dfy`): the `View` class with `CreateTextures`, `Render` and its loop body `DrawCell`.

## Model

| member | source | states |
|---|---|---|
| Settings.DefaultSettings | gui/src/view.rs:22-33 | the default board is 640 wide with padding 192; the white, black and move colours are pairwise distinct; the border differs from the background; every colour component lies in [0, 1] |
| Layout.CalculateSize | gui/src/view.rs:82-104 | the board is centred horizontally (2·x + board = width) and vertically (2·y + board = height); it is no taller than the viewport; the x padding is the minimum width/5 or the board is the full height; for a positive viewport the board lies inside it and has positive size |
| Layout.CalculateSizeIsCentredSquare | gui/src/view.rs:87-103 | the two branches equal one rule: the square of side min(width − 2·width/5, height), centred |
| Layout.CalculateSizeIsLargest | gui/src/view.rs:87-103 | no square that keeps the minimum padding and fits the height is larger than the chosen board |
| Textures.LoadOrder | gui/src/view.rs:49-76 | twelve textures, where entry i is the file of colour i / 6 and piece type i % 6 |
| Textures.TextureIndex | gui/src/view.rs:151-155 | for discriminants 1..6, the index is 6·colourIndex + (type − 1), so it lies in 0..11 |
| Textures.TextureIndexNamesLoadedTexture | gui/src/view.rs:151-155 | the texture looked up for a piece is the one loaded from that piece's colour and type file |
| Textures.TextureIndexIsBijective | gui/src/view.rs:151-155 | the index is a bijection between the 12 (colour, type) pairs and 0..11, and PieceAt is its inverse |
| Textures.TextureIndexInjective | gui/src/view.rs:151-155 | two different pieces never share a texture index |
| BoardView.View.constructor | gui/src/view.rs:42-44 | a new view holds exactly the given settings and textures |
| BoardView.View.CreateTextures | gui/src/view.rs:46-80 | the nested colour-outer, piece-inner loop returns exactly LoadOrder |
| BoardView.View.Render | gui/src/view.rs:106-167 | the nested x-outer, y-inner loop issues exactly RenderOps of the view's settings, textures and controller; it reads the settings' board size and padding and changes nothing |
| BoardView.View.DrawCell | gui/src/view.rs:124-164 | one loop iteration issues exactly CellOps for its cell |
| Render.CellColor | gui/src/view.rs:124-134 | the selected square gets the move colour; every other square gets the black colour when x + y is odd and the white colour otherwise |
| Render.CellOps | gui/src/view.rs:136-164 | each cell issues a rectangle first, in its cell colour over its cell box; then a move-colour ellipse, exactly when the square is a current move; then, last, exactly when the square is occupied, the image of the piece's texture |
| Render.RenderOps | gui/src/view.rs:110-118 | render starts with a clear in the background colour, then the border rectangle [padding, 0, board, board] |
| Render.CellDrawnAt | gui/src/view.rs:122-165 | the operations of each cell form one contiguous block of the output, after the clear and the border |
| Render.CellsInLoopOrder | gui/src/view.rs:122-123 | cell blocks appear with x in the outer loop and y in the inner one: an earlier cell's block ends before a later cell's begins |
| Render.CellsLength | gui/src/view.rs:122-165 | the first k cells issue k rectangles, plus one ellipse per move square among them, plus one image per occupied square among them |
| Render.RenderOpsLength | gui/src/view.rs:111-165 | render issues 66 operations plus one per move square on the board plus one per occupied square |
| Render.CellOffsets | gui/src/view.rs:136-138 | cell (x, y) sits at [padding + 2 + c·x, 2 + c·(7 − y), c, c] with c = (board − 4)/8 |
| Render.CellWithinBorder | gui/src/view.rs:113-138 | when the board is at least 4, every cell lies inside the border rectangle |
| Render.CellsDisjoint | gui/src/view.rs:136-138 | when the board is at least 4, distinct cells do not overlap |
| Render.RankZeroAtBottom | gui/src/view.rs:137 | rank 0 is the bottom row, ending 2 above the border's bottom edge, and higher ranks lie above lower ones |
| Render.FilesLeftToRight | gui/src/view.rs:136 | higher files lie to the right of lower ones |

## Left out

- The piston_window calls are abstract. `clear`, `rectangle`, `ellipse`, `Image::draw` and `Context.transform` become the `DrawOp` values render returns, and `get_view_size` becomes the width and height parameters of `CalculateSize`.
- Texture loading is not modelled. `Texture::from_path`, the `println!` and the `.unwrap()` panic on a missing file are I/O. A texture is modelled as the path it is loaded from, and `CreateTextures` takes no window.
- Floating point is idealised. `f64` and `f32` arithmetic is modelled with exact reals, so rounding in `(board_size - 4.0) / 8.0` and in the layout is not modelled.
- The game controller and the chess crate are outside this model.
  - The controller is taken as a snapshot: the selected square, the keys of the move map, and a function from square to occupant.
  - The move `HashMap` is modelled as its key set, because render only calls `contains_key`.
  - Piece-type discriminants are assumed to be 1..6, in the order pawn, rook, knight, bishop, queen, king.
- BoardView.View.Render: requires `PiecesCovered`. Every piece must have a discriminant in 1..6 and an index inside the texture list. The source would panic on an out-of-range index (or an underflow of the `u8` subtraction); the model excludes those cases instead of modelling the panic.
- Render does not use `calculate_size`. It uses the settings' board size and padding and never applies a y offset, and the model does the same. The layout lemmas are therefore about `CalculateSize` alone.
- BoardView.View.DrawCell is the body of render's inner loop, extracted as a method. It takes the cell size computed once before the loops, as the source does.
