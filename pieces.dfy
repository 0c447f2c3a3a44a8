/** The piece model of src/lib.rs: piece kinds (with the has-moved flag carried
    inside Pawn, Rook and King), colours, pieces, their display glyphs and the
    movement predicate. */
module Pieces {
  import opened Ascii

  datatype Option<T> = None | Some(value: T)

  datatype Color = Black | White

  /** `moved` is the has-moved flag; Bishop, Knight and Queen carry none. */
  datatype PieceType =
    | Pawn(moved: bool)
    | Rook(moved: bool)
    | Bishop
    | Knight
    | King(moved: bool)
    | Queen

  datatype Piece = Piece(pieceType: PieceType, color: Color)

  /** The kinds that carry a has-moved flag. */
  predicate HasFlag(t: PieceType) { t.Pawn? || t.Rook? || t.King? }

  /** Two piece types are of the same kind when they differ at most in the flag. */
  predicate SameKind(s: PieceType, t: PieceType) {
    || (s.Pawn? && t.Pawn?)
    || (s.Rook? && t.Rook?)
    || (s.Bishop? && t.Bishop?)
    || (s.Knight? && t.Knight?)
    || (s.King? && t.King?)
    || (s.Queen? && t.Queen?)
  }

  /** Color::is_white: true for White, false for Black. */
  predicate IsWhite(c: Color): (white: bool)
    ensures white <==> c != Black
  {
    c == White
  }

  /** PieceType::ret_type_as_char: the upper-case glyph of the kind. */
  function TypeAsChar(t: PieceType): (ch: char)
    ensures ch in "PRBNKQ"
  {
    match t
    case Pawn(_) => 'P'
    case Rook(_) => 'R'
    case Bishop => 'B'
    case Knight => 'N'
    case King(_) => 'K'
    case Queen => 'Q'
  }

  /** The glyph names the kind and nothing else: it ignores the flag and tells
      every two kinds apart. */
  lemma TypeAsCharIdentifiesKind(s: PieceType, t: PieceType)
    ensures TypeAsChar(s) == TypeAsChar(t) <==> SameKind(s, t)
  {
  }

  /** PieceType::ret_can_make_move. In this revision it is a stub that rejects
      every move, whatever the kind and the squares. */
  function CanMakeMove(t: PieceType, beg: (nat, nat), end: (nat, nat)): (can: bool)
    ensures !can
  {
    false
  }

  /** Piece::get_piece_as_char: the kind's glyph, upper case for White and
      ASCII lower case for Black. */
  function PieceAsChar(p: Piece): (ch: char)
    ensures IsWhite(p.color) <==> ch in "PRBNKQ"
    ensures !IsWhite(p.color) <==> ch in "prbnkq"
    ensures ToAsciiUppercase(ch) == TypeAsChar(p.pieceType)
  {
    if IsWhite(p.color) then TypeAsChar(p.pieceType)
    else ToAsciiLowercase(TypeAsChar(p.pieceType))
  }

  /** Two pieces print alike exactly when they have the same colour and the
      same kind. */
  lemma PieceAsCharIdentifiesPiece(p: Piece, q: Piece)
    ensures PieceAsChar(p) == PieceAsChar(q) <==>
              p.color == q.color && SameKind(p.pieceType, q.pieceType)
  {
    TypeAsCharIdentifiesKind(p.pieceType, q.pieceType);
  }

  /** build_piece: an occupied cell holding exactly the given kind and colour. */
  function BuildPiece(t: PieceType, c: Color): (cell: Option<Piece>)
    ensures cell.Some? && cell.value.pieceType == t && cell.value.color == c
  {
    Some(Piece(t, c))
  }

  /** The rewrite Board::move_piece applies to the piece on the origin square
      before copying it: an unmoved Pawn, Rook or King gets its flag set. */
  function MarkMoved(p: Piece): (q: Piece)
    ensures q.color == p.color
    ensures SameKind(q.pieceType, p.pieceType)
    ensures HasFlag(q.pieceType) ==> q.pieceType.moved
    ensures !HasFlag(p.pieceType) || p.pieceType.moved ==> q == p
  {
    match p.pieceType
    case King(false) => Piece(King(true), p.color)
    case Pawn(false) => Piece(Pawn(true), p.color)
    case Rook(false) => Piece(Rook(true), p.color)
    case _ => p
  }
}
