/**
 * The piece textures of the view: the order in which View::create_textures loads the
 * twelve piece images and the index arithmetic View::render uses to find one again.
 * A loaded texture is identified by the path it was loaded from.
 */
module Textures {

  /** The side a piece belongs to (the chess crate's Color). */
  datatype Color = White | Black

  /** A loaded piece image, known by the file it came from. */
  datatype Texture = Texture(path: string)

  /** The side names, in the order of create_textures' outer loop. */
  const ColorNames: seq<string> := ["white", "black"]

  /** The piece-type names, in the order of create_textures' inner loop. */
  const PieceTypeNames: seq<string> := ["pawn", "rook", "knight", "bishop", "queen", "king"]

  /** The file a texture is loaded from. */
  function TexturePath(color: string, piece: string): string {
    "gui/resources/pieces/" + color + "-" + piece + ".png"
  }

  /** The lower-case name of a side, as it appears in a texture's file name. */
  function ColorName(c: Color): string {
    match c
    case White => "white"
    case Black => "black"
  }

  /**
   * The name of a piece type given the chess crate's discriminant for it. The model
   * assumes the discriminants 1 to 6 stand for pawn, rook, knight, bishop, queen and
   * king, in that order; that crate is not part of this model.
   */
  function PieceTypeName(pieceType: int): string
    requires 1 <= pieceType <= 6
  {
    match pieceType
    case 1 => "pawn"
    case 2 => "rook"
    case 3 => "knight"
    case 4 => "bishop"
    case 5 => "queen"
    case 6 => "king"
  }

  /**
   * The textures create_textures returns: for each side, for each piece type, the
   * image at that side's and type's path.
   */
  function LoadOrder(): (r: seq<Texture>)
    ensures |r| == |ColorNames| * |PieceTypeNames| == 12
    ensures forall i :: 0 <= i < |r| ==> r[i] == Texture(TexturePath(ColorNames[i / 6], PieceTypeNames[i % 6]))
  {
    seq(12, i requires 0 <= i < 12 => Texture(TexturePath(ColorNames[i / 6], PieceTypeNames[i % 6])))
  }

  /** 0 for White, 1 for Black: the position of a side in create_textures' outer loop. */
  function ColorIndex(c: Color): nat {
    if c == White then 0 else 1
  }

  /**
   * The index render computes for a piece: its type's discriminant minus one for a
   * White piece and plus five for a Black one. It is the piece's position in the load
   * order, six textures per side, and stays within the twelve textures loaded.
   */
  function TextureIndex(c: Color, pieceType: int): (i: nat)
    requires 1 <= pieceType <= 6
    ensures i == 6 * ColorIndex(c) + (pieceType - 1)
    ensures i < 12
  {
    if c == White then pieceType - 1 else pieceType + 5
  }

  /** The side and piece type whose texture sits at a position of the load order. */
  function PieceAt(i: int): (p: (Color, int))
    requires 0 <= i < 12
    ensures 1 <= p.1 <= 6
  {
    (if i < 6 then White else Black, i % 6 + 1)
  }

  /**
   * The texture render looks up for a piece is the one create_textures loaded from
   * that piece's file.
   */
  lemma TextureIndexNamesLoadedTexture(c: Color, pieceType: int)
    requires 1 <= pieceType <= 6
    ensures LoadOrder()[TextureIndex(c, pieceType)] == Texture(TexturePath(ColorName(c), PieceTypeName(pieceType)))
  {
    var i := TextureIndex(c, pieceType);
    assert i / 6 == ColorIndex(c) && i % 6 == pieceType - 1;
  }

  /**
   * The index is a bijection between the twelve (side, type) pairs and the positions
   * 0 to 11: PieceAt undoes TextureIndex and TextureIndex undoes PieceAt.
   */
  lemma TextureIndexIsBijective(c: Color, pieceType: int, i: int)
    requires 1 <= pieceType <= 6 && 0 <= i < 12
    ensures PieceAt(TextureIndex(c, pieceType)) == (c, pieceType)
    ensures TextureIndex(PieceAt(i).0, PieceAt(i).1) == i
  {
  }

  /** Two different pieces never share a texture. */
  lemma TextureIndexInjective(c1: Color, t1: int, c2: Color, t2: int)
    requires 1 <= t1 <= 6 && 1 <= t2 <= 6
    requires TextureIndex(c1, t1) == TextureIndex(c2, t2)
    ensures c1 == c2 && t1 == t2
  {
    TextureIndexIsBijective(c1, t1, 0);
    TextureIndexIsBijective(c2, t2, 0);
  }
}
