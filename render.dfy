/**
 * What View::render draws, as an ordered sequence of draw operations: the spec of
 * the render loop, over the controller's selection, move set and board.
 */
module Render {
  import opened Wrappers
  import opened Settings
  import opened Textures

  /** A rectangle [x, y, w, h] in draw coordinates; y grows downwards. */
  datatype Box = Box(x: real, y: real, w: real, h: real)

  /** One drawing call on the graphics sink, in place of the piston_window calls. */
  datatype DrawOp =
    | Clear(color: Rgba)
    | Rect(color: Rgba, box: Box)
    | Ellipse(color: Rgba, box: Box)
    | Image(texture: Texture, box: Box)

  /** What the game holds at a square: nothing, or a piece with its side and type discriminant. */
  datatype Occupant = Empty | Piece(color: Color, pieceType: int)

  /** A board square as (file, rank). */
  type Square = (int, int)

  /**
   * The part of the game controller render reads: the selected square, the current
   * moves (the keys of the source's move map) and the piece at each square.
   */
  datatype Controller = Controller(
    selectedSquare: Option<Square>,
    currentMoves: Option<set<Square>>,
    at: (int, int) -> Occupant)

  predicate OnBoard(x: int, y: int) {
    0 <= x < 8 && 0 <= y < 8
  }

  /**
   * Every piece on the board has a type discriminant in 1..6 and its texture index
   * falls inside a texture list of the given length, so render's lookup cannot fail.
   */
  predicate PiecesCovered(ctl: Controller, textureCount: int) {
    forall x, y | 0 <= x < 8 && 0 <= y < 8 && ctl.at(x, y).Piece? ::
      1 <= ctl.at(x, y).pieceType <= 6 &&
      TextureIndex(ctl.at(x, y).color, ctl.at(x, y).pieceType) < textureCount
  }

  /** Square (x, y) is one of the current moves. */
  predicate IsMove(ctl: Controller, x: int, y: int) {
    ctl.currentMoves.Some? && (x, y) in ctl.currentMoves.value
  }

  /** The side length of one cell: the board less a 2-unit border on each side, over 8. */
  function CellSize(boardSize: real): real {
    (boardSize - 4.0) / 8.0
  }

  /**
   * The rectangle of cell (x, y) for a given left padding and cell size: 2 units in
   * from the border's corner, rank 7 in the top row and rank 0 in the bottom one.
   */
  function CellAt(padding: real, cellSize: real, x: int, y: int): Box {
    Box(padding + 2.0 + cellSize * x as real, 2.0 + cellSize * (7.0 - y as real), cellSize, cellSize)
  }

  /** The screen rectangle of cell (x, y) under the given settings. */
  function CellBox(s: ViewSettings, x: int, y: int): Box {
    CellAt(s.padding, CellSize(s.boardSize), x, y)
  }

  /** The border rectangle drawn under the cells. */
  function BorderBox(s: ViewSettings): Box {
    Box(s.padding, 0.0, s.boardSize, s.boardSize)
  }

  /**
   * The fill colour of cell (x, y): the move colour on the selected square and the
   * checkerboard colour everywhere else, dark when x + y is odd.
   */
  function CellColor(s: ViewSettings, selected: Option<Square>, x: int, y: int): (c: Rgba)
    requires OnBoard(x, y)
    ensures selected == Some((x, y)) ==> c == s.moveColor
    ensures selected != Some((x, y)) ==> c == if (x + y) % 2 == 1 then s.blackColor else s.whiteColor
  {
    var base := if x % 2 != y % 2 then s.blackColor else s.whiteColor;
    if selected.Some? && selected.value.0 == x && selected.value.1 == y then s.moveColor else base
  }

  /**
   * What render draws for cell (x, y), back to front: the cell's rectangle in its
   * colour; a move-colour ellipse over it exactly when the square is a current move,
   * whether or not it is occupied; and last, on top, exactly when the square is
   * occupied, the image of the piece's texture stretched over the cell.
   */
  function CellOps(s: ViewSettings, textures: seq<Texture>, ctl: Controller, x: int, y: int): (r: seq<DrawOp>)
    requires OnBoard(x, y) && PiecesCovered(ctl, |textures|)
    ensures |r| == 1 + (if IsMove(ctl, x, y) then 1 else 0) + (if ctl.at(x, y).Piece? then 1 else 0)
    ensures r[0] == Rect(CellColor(s, ctl.selectedSquare, x, y), CellBox(s, x, y))
    ensures Ellipse(s.moveColor, CellBox(s, x, y)) in r <==> IsMove(ctl, x, y)
    ensures IsMove(ctl, x, y) ==> r[1] == Ellipse(s.moveColor, CellBox(s, x, y))
    ensures r[|r| - 1].Image? <==> ctl.at(x, y).Piece?
    ensures ctl.at(x, y).Piece? ==>
      r[|r| - 1] == Image(textures[TextureIndex(ctl.at(x, y).color, ctl.at(x, y).pieceType)], CellBox(s, x, y))
  {
    [Rect(CellColor(s, ctl.selectedSquare, x, y), CellBox(s, x, y))]
    + MoveMarker(s, ctl, x, y)
    + PieceImage(s, textures, ctl, x, y)
  }

  /** The ellipse marking cell (x, y) as a current move, if it is one. */
  function MoveMarker(s: ViewSettings, ctl: Controller, x: int, y: int): seq<DrawOp> {
    if IsMove(ctl, x, y) then [Ellipse(s.moveColor, CellBox(s, x, y))] else []
  }

  /** The image of the piece on cell (x, y), if there is one. */
  function PieceImage(s: ViewSettings, textures: seq<Texture>, ctl: Controller, x: int, y: int): seq<DrawOp>
    requires OnBoard(x, y) && PiecesCovered(ctl, |textures|)
  {
    var piece := ctl.at(x, y);
    if piece.Piece? then [Image(textures[TextureIndex(piece.color, piece.pieceType)], CellBox(s, x, y))] else []
  }

  /** The operations of every cell, in render's loop order, x outer and y inner: cell k is (k / 8, k % 8). */
  function Cells(s: ViewSettings, textures: seq<Texture>, ctl: Controller): seq<seq<DrawOp>>
    requires PiecesCovered(ctl, |textures|)
  {
    seq(64, k requires 0 <= k < 64 => CellOps(s, textures, ctl, k / 8, k % 8))
  }

  /** The parts joined one after the other. */
  function Flatten<T>(parts: seq<seq<T>>): seq<T> {
    if parts == [] then [] else Flatten(parts[..|parts| - 1]) + parts[|parts| - 1]
  }

  /**
   * Everything render draws: it clears the surface, draws the border, then the
   * operations of the 64 cells one after the other.
   */
  function RenderOps(s: ViewSettings, textures: seq<Texture>, ctl: Controller): (r: seq<DrawOp>)
    requires PiecesCovered(ctl, |textures|)
    ensures |r| >= 2 && r[0] == Clear(s.backgroundColor) && r[1] == Rect(s.borderColor, BorderBox(s))
  {
    [Clear(s.backgroundColor), Rect(s.borderColor, BorderBox(s))] + Flatten(Cells(s, textures, ctl))
  }

  /** The move squares that lie on the board. */
  ghost function MoveSquares(ctl: Controller): set<Square> {
    if ctl.currentMoves.None? then {} else set p | p in ctl.currentMoves.value && OnBoard(p.0, p.1)
  }

  /** The occupied squares of the board. */
  ghost function OccupiedSquares(ctl: Controller): set<Square> {
    set x, y | 0 <= x < 8 && 0 <= y < 8 && ctl.at(x, y).Piece? :: (x, y)
  }

  /** The squares of a set that come before cell k in render's loop order. */
  ghost function Before(squares: set<Square>, k: int): set<Square> {
    set p | p in squares && 8 * p.0 + p.1 < k
  }

  /** Where the operations of cell (x, y) start in RenderOps. */
  function CellStart(s: ViewSettings, textures: seq<Texture>, ctl: Controller, x: int, y: int): nat
    requires OnBoard(x, y) && PiecesCovered(ctl, |textures|)
  {
    2 + |Flatten(Cells(s, textures, ctl)[..8 * x + y])|
  }

  /** Cell k of the loop order is (k / 8, k % 8), and (x, y) is cell 8 * x + y. */
  lemma CellNumbering(x: int, y: int)
    requires OnBoard(x, y)
    ensures (8 * x + y) / 8 == x && (8 * x + y) % 8 == y
  {
  }

  /** Appending in steps gives the same sequence as appending the steps' concatenation. */
  lemma AppendAssoc<T>(a: seq<T>, b: seq<T>, c: seq<T>, d: seq<T>)
    ensures a + b + c + d == a + (b + c + d)
  {
  }

  /** Joining one more part appends that part. */
  lemma FlattenSnoc<T>(parts: seq<seq<T>>, k: int)
    requires 0 <= k < |parts|
    ensures Flatten(parts[..k + 1]) == Flatten(parts[..k]) + parts[k]
  {
    assert parts[..k + 1][..k] == parts[..k];
  }

  /** Joining the first j parts gives a prefix of joining the first k parts, for j <= k. */
  lemma {:induction false} FlattenPrefix<T>(parts: seq<seq<T>>, j: int, k: int)
    requires 0 <= j <= k <= |parts|
    ensures Flatten(parts[..j]) <= Flatten(parts[..k])
    decreases k
  {
    if j < k {
      FlattenPrefix(parts, j, k - 1);
      FlattenSnoc(parts, k - 1);
    }
  }

  /** A prefix followed by the first k parts, extended by part k, is the prefix followed by the first k + 1 parts. */
  lemma FlattenAppend<T>(header: seq<T>, parts: seq<seq<T>>, k: int, before: seq<T>, after: seq<T>)
    requires 0 <= k < |parts|
    requires before == header + Flatten(parts[..k]) && after == before + parts[k]
    ensures after == header + Flatten(parts[..k + 1])
  {
    FlattenSnoc(parts, k);
    AppendAssoc(header, Flatten(parts[..k]), parts[k], []);
  }

  /** A slice of the part after a header is the same slice, shifted by the header's length. */
  lemma SliceAfterHeader<T>(header: seq<T>, rest: seq<T>, i: int, j: int)
    requires 0 <= i <= j <= |rest|
    ensures (header + rest)[|header| + i .. |header| + j] == rest[i..j]
  {
  }

  /** Part k sits in the joined sequence right after the parts before it. */
  lemma FlattenPart<T>(parts: seq<seq<T>>, k: int)
    requires 0 <= k < |parts|
    ensures |Flatten(parts[..k])| + |parts[k]| <= |Flatten(parts)|
    ensures Flatten(parts)[|Flatten(parts[..k])| .. |Flatten(parts[..k])| + |parts[k]|] == parts[k]
  {
    FlattenSnoc(parts, k);
    FlattenPrefix(parts, k + 1, |parts|);
    assert parts[..|parts|] == parts;
    var before, all := Flatten(parts[..k]), Flatten(parts);
    assert all[..|before| + |parts[k]|] == before + parts[k];
  }

  /** The cell operations of cell (x, y) are number 8 * x + y in the loop order. */
  lemma CellsAt(s: ViewSettings, textures: seq<Texture>, ctl: Controller, x: int, y: int)
    requires OnBoard(x, y) && PiecesCovered(ctl, |textures|)
    ensures Cells(s, textures, ctl)[8 * x + y] == CellOps(s, textures, ctl, x, y)
  {
    CellNumbering(x, y);
  }

  /**
   * Appending the ops of cell (x, y) to everything drawn for the cells before it gives
   * everything drawn up to and including it.
   */
  lemma CellsExtend(s: ViewSettings, textures: seq<Texture>, ctl: Controller, x: int, y: int, k: int,
                    header: seq<DrawOp>, before: seq<DrawOp>, after: seq<DrawOp>)
    requires OnBoard(x, y) && k == 8 * x + y && PiecesCovered(ctl, |textures|)
    requires before == header + Flatten(Cells(s, textures, ctl)[..k])
    requires after == before + CellOps(s, textures, ctl, x, y)
    ensures k + 1 <= 64 && after == header + Flatten(Cells(s, textures, ctl)[..k + 1])
  {
    CellsAt(s, textures, ctl, x, y);
    FlattenAppend(header, Cells(s, textures, ctl), k, before, after);
  }

  /**
   * The operations of cell (x, y) appear in RenderOps as one contiguous block at
   * CellStart, after the clear and the border.
   */
  lemma CellDrawnAt(s: ViewSettings, textures: seq<Texture>, ctl: Controller, x: int, y: int)
    requires OnBoard(x, y) && PiecesCovered(ctl, |textures|)
    ensures 2 <= CellStart(s, textures, ctl, x, y)
    ensures CellStart(s, textures, ctl, x, y) + |CellOps(s, textures, ctl, x, y)| <= |RenderOps(s, textures, ctl)|
    ensures RenderOps(s, textures, ctl)[CellStart(s, textures, ctl, x, y) ..
      CellStart(s, textures, ctl, x, y) + |CellOps(s, textures, ctl, x, y)|] == CellOps(s, textures, ctl, x, y)
  {
    var cells := Cells(s, textures, ctl);
    var k := 8 * x + y;
    CellsAt(s, textures, ctl, x, y);
    FlattenPart(cells, k);
    var header := [Clear(s.backgroundColor), Rect(s.borderColor, BorderBox(s))];
    assert RenderOps(s, textures, ctl) == header + Flatten(cells);
    assert CellStart(s, textures, ctl, x, y) == |header| + |Flatten(cells[..k])|;
    SliceAfterHeader(header, Flatten(cells), |Flatten(cells[..k])|, |Flatten(cells[..k])| + |cells[k]|);
  }

  /**
   * Cells are drawn with x in the outer loop and y in the inner one: the block of a
   * cell earlier in that order ends before the block of a later cell begins.
   */
  lemma CellsInLoopOrder(s: ViewSettings, textures: seq<Texture>, ctl: Controller, x1: int, y1: int, x2: int, y2: int)
    requires OnBoard(x1, y1) && OnBoard(x2, y2) && PiecesCovered(ctl, |textures|)
    requires x1 < x2 || (x1 == x2 && y1 < y2)
    ensures CellStart(s, textures, ctl, x1, y1) + |CellOps(s, textures, ctl, x1, y1)| <= CellStart(s, textures, ctl, x2, y2)
  {
    var cells := Cells(s, textures, ctl);
    var k1, k2 := 8 * x1 + y1, 8 * x2 + y2;
    FlattenSnoc(cells, k1);
    CellsAt(s, textures, ctl, x1, y1);
    FlattenPrefix(cells, k1 + 1, k2);
  }

  /** Adding cell k to the cells before it adds that square to a set exactly when it is in the set. */
  lemma BeforeStep(squares: set<Square>, k: int)
    requires 0 <= k < 64
    requires forall p | p in squares :: OnBoard(p.0, p.1)
    ensures (k / 8, k % 8) !in Before(squares, k)
    ensures Before(squares, k + 1) ==
      Before(squares, k) + if (k / 8, k % 8) in squares then {(k / 8, k % 8)} else {}
  {
    var cell := (k / 8, k % 8);
    forall p | p in Before(squares, k + 1) && 8 * p.0 + p.1 == k
      ensures p == cell
    {
      CellNumbering(p.0, p.1);
    }
  }

  /** All squares of an on-board set come before cell 64. */
  lemma BeforeAll(squares: set<Square>)
    requires forall p | p in squares :: OnBoard(p.0, p.1)
    ensures Before(squares, 64) == squares
  {
  }

  /** Cell k adds one to the count of the squares of a set before it exactly when it is in the set. */
  lemma BeforeCount(squares: set<Square>, k: int)
    requires 0 <= k < 64
    requires forall p | p in squares :: OnBoard(p.0, p.1)
    ensures |Before(squares, k + 1)| == |Before(squares, k)| + if (k / 8, k % 8) in squares then 1 else 0
  {
    BeforeStep(squares, k);
  }

  /** Cell k draws its rectangle, one ellipse if it is a move square and one image if it is occupied. */
  lemma CellLength(s: ViewSettings, textures: seq<Texture>, ctl: Controller, k: int)
    requires 0 <= k < 64 && PiecesCovered(ctl, |textures|)
    ensures |Cells(s, textures, ctl)[k]| == 1
      + (|Before(MoveSquares(ctl), k + 1)| - |Before(MoveSquares(ctl), k)|)
      + (|Before(OccupiedSquares(ctl), k + 1)| - |Before(OccupiedSquares(ctl), k)|)
  {
    var cell := (k / 8, k % 8);
    BeforeCount(MoveSquares(ctl), k);
    BeforeCount(OccupiedSquares(ctl), k);
    assert cell in MoveSquares(ctl) <==> IsMove(ctl, cell.0, cell.1);
    assert cell in OccupiedSquares(ctl) <==> ctl.at(cell.0, cell.1).Piece?;
  }

  /**
   * The first k cells draw one rectangle each, one ellipse per move square among
   * them and one image per occupied square among them.
   */
  lemma {:induction false} CellsLength(s: ViewSettings, textures: seq<Texture>, ctl: Controller, k: int)
    requires 0 <= k <= 64 && PiecesCovered(ctl, |textures|)
    ensures |Flatten(Cells(s, textures, ctl)[..k])| ==
      k + |Before(MoveSquares(ctl), k)| + |Before(OccupiedSquares(ctl), k)|
  {
    if k > 0 {
      CellsLength(s, textures, ctl, k - 1);
      FlattenSnoc(Cells(s, textures, ctl), k - 1);
      CellLength(s, textures, ctl, k - 1);
    }
  }

  /**
   * render issues 2 + 64 operations plus one per move square on the board plus one
   * per occupied square.
   */
  lemma RenderOpsLength(s: ViewSettings, textures: seq<Texture>, ctl: Controller)
    requires PiecesCovered(ctl, |textures|)
    ensures |RenderOps(s, textures, ctl)| == 66 + |MoveSquares(ctl)| + |OccupiedSquares(ctl)|
  {
    CellsLength(s, textures, ctl, 64);
    assert Cells(s, textures, ctl)[..64] == Cells(s, textures, ctl);
    BeforeAll(MoveSquares(ctl));
    BeforeAll(OccupiedSquares(ctl));
  }

  /** Box a lies within box b. */
  predicate Within(a: Box, b: Box) {
    b.x <= a.x && a.x + a.w <= b.x + b.w && b.y <= a.y && a.y + a.h <= b.y + b.h
  }

  /** Boxes a and b share no interior point. */
  predicate Disjoint(a: Box, b: Box) {
    a.x + a.w <= b.x || b.x + b.w <= a.x || a.y + a.h <= b.y || b.y + b.h <= a.y
  }

  /** c added to itself n times: the product c * n without a multiplication. */
  function Times(c: real, n: nat): real {
    if n == 0 then 0.0 else Times(c, n - 1) + c
  }

  lemma {:induction false} TimesIsProduct(c: real, n: nat)
    ensures Times(c, n) == c * n as real
  {
    if n > 0 {
      TimesIsProduct(c, n - 1);
      assert c * n as real == c * (n - 1) as real + c;
    }
  }

  /** For c >= 0, the multiples c * n grow with n, at least c per step. */
  lemma {:induction false} TimesGap(c: real, n: nat, m: nat)
    requires c >= 0.0 && n < m
    ensures 0.0 <= Times(c, n) && Times(c, n) + c <= Times(c, m)
    decreases m
  {
    if n + 1 < m {
      TimesGap(c, n, m - 1);
    } else if n > 0 {
      TimesGap(c, n - 1, n);
    }
  }

  /** The offsets of cell (x, y) from the border's inner corner, as repeated additions of the cell size. */
  lemma CellOffsets(s: ViewSettings, x: int, y: int)
    requires OnBoard(x, y)
    ensures CellBox(s, x, y).x == s.padding + 2.0 + Times(CellSize(s.boardSize), x)
    ensures CellBox(s, x, y).y == 2.0 + Times(CellSize(s.boardSize), 7 - y)
    ensures CellBox(s, x, y).w == CellBox(s, x, y).h == CellSize(s.boardSize)
  {
    var c := CellSize(s.boardSize);
    TimesIsProduct(c, x);
    TimesIsProduct(c, 7 - y);
    assert c * (7.0 - y as real) == c * (7 - y) as real;
  }

  /** Every cell lies within the border rectangle, once the board is at least 4 units. */
  lemma CellWithinBorder(s: ViewSettings, x: int, y: int)
    requires OnBoard(x, y) && s.boardSize >= 4.0
    ensures Within(CellBox(s, x, y), BorderBox(s))
  {
    var c := CellSize(s.boardSize);
    CellOffsets(s, x, y);
    TimesGap(c, x, 8);
    TimesGap(c, 7 - y, 8);
    TimesIsProduct(c, 8);
  }

  /** Two different cells do not overlap. */
  lemma CellsDisjoint(s: ViewSettings, x1: int, y1: int, x2: int, y2: int)
    requires OnBoard(x1, y1) && OnBoard(x2, y2) && (x1, y1) != (x2, y2) && s.boardSize >= 4.0
    ensures Disjoint(CellBox(s, x1, y1), CellBox(s, x2, y2))
  {
    var c := CellSize(s.boardSize);
    CellOffsets(s, x1, y1);
    CellOffsets(s, x2, y2);
    if x1 < x2 {
      TimesGap(c, x1, x2);
    } else if x2 < x1 {
      TimesGap(c, x2, x1);
    } else if y1 < y2 {
      TimesGap(c, 7 - y2, 7 - y1);
    } else {
      TimesGap(c, 7 - y1, 7 - y2);
    }
  }

  /**
   * Ranks run bottom to top: rank 0 is the bottom row, its lower edge 2 units above
   * the border's, and a higher rank lies above a lower one.
   */
  lemma RankZeroAtBottom(s: ViewSettings, x: int, y1: int, y2: int)
    requires OnBoard(x, y1) && OnBoard(x, y2) && y1 < y2 && s.boardSize >= 4.0
    ensures CellBox(s, x, 0).y + CellBox(s, x, 0).h == s.boardSize - 2.0
    ensures CellBox(s, x, y2).y + CellBox(s, x, y2).h <= CellBox(s, x, y1).y
  {
    var c := CellSize(s.boardSize);
    CellOffsets(s, x, 0);
    CellOffsets(s, x, y1);
    CellOffsets(s, x, y2);
    TimesGap(c, 7 - y2, 7 - y1);
    TimesIsProduct(c, 8);
    assert Times(c, 8) == Times(c, 7) + c;
  }

  /** Files run left to right: a higher file lies to the right of a lower one. */
  lemma FilesLeftToRight(s: ViewSettings, x1: int, x2: int, y: int)
    requires OnBoard(x1, y) && OnBoard(x2, y) && x1 < x2 && s.boardSize >= 4.0
    ensures CellBox(s, x1, y).x + CellBox(s, x1, y).w <= CellBox(s, x2, y).x
  {
    CellOffsets(s, x1, y);
    CellOffsets(s, x2, y);
    TimesGap(CellSize(s.boardSize), x1, x2);
  }
}
