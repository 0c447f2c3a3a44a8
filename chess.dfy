/** The board object of src/lib.rs: an 8x8 array of optional pieces updated in
    place, and the two 8-bit counters `turn` and `turn_number`, which nothing
    in this revision advances. */
module Chess {
  import opened Pieces
  import opened Notation
  import opened Grids
  import Setup

  /** Rust's i8. */
  newtype i8 = x: int | -128 <= x < 128

  class Board {
    var board: array2<Cell>
    var turn: i8
    var turnNumber: i8

    ghost predicate Valid()
      reads this
    {
      board.Length0 == 8 && board.Length1 == 8
    }

    /** The position the array holds. */
    ghost function Cells(): (g: Grid)
      reads this, board
      requires Valid()
      ensures IsGrid(g)
    {
      GridOf(board)
    }

    /** Board::default: the standard starting position, both counters zero. */
    constructor Default()
      ensures Valid() && fresh(board)
      ensures Cells() == Setup.StartingGrid()
      ensures turn == 0 && turnNumber == 0
    {
      var start := Setup.BuildStartingBoard();
      board := start;
      turn := 0;
      turnNumber := 0;
    }

    /** Board::build_starting_board: replaces the position with the starting
      one and leaves the counters alone. */
    method BuildStartingBoard()
      modifies this
      ensures Valid() && fresh(board)
      ensures Cells() == Setup.StartingGrid()
      ensures turn == old(turn) && turnNumber == old(turnNumber)
    {
      board := Setup.BuildStartingBoard();
    }

    /** Board::move_piece. Indexing outside the array panics in the source,
        hence the bounds in the precondition; nothing else is checked. */
    method MovePiece(beg: Square, end: Square)
      requires Valid() && OnBoard(beg) && OnBoard(end)
      modifies board
      ensures Valid() && unchanged(this)
      ensures Cells() == AfterMove(old(Cells()), beg, end)
    {
      var (begRank, begFile) := beg;
      var (endRank, endFile) := end;
      ghost var before := Cells();

      match board[begRank, begFile] {
        case Some(piece) =>
          match piece.pieceType {
            case King(false) =>
              board[begRank, begFile] := Some(Piece(King(true), piece.color));
            case Pawn(false) =>
              board[begRank, begFile] := Some(Piece(Pawn(true), piece.color));
            case Rook(false) =>
              board[begRank, begFile] := Some(Piece(Rook(true), piece.color));
            case _ =>
          }
        case None =>
      }

      board[endRank, endFile] := board[begRank, begFile];
      board[begRank, begFile] := None;
      GridsEqual(Cells(), AfterMove(before, beg, end));
    }

    /** Board::move_piece_with_chess_notation, without its two debugging
        printouts: both names are converted and the move is made. */
    method MovePieceWithChessNotation(start: string, end: string)
      requires Valid() && IsSquareName(start) && IsSquareName(end)
      modifies board
      ensures Valid() && unchanged(this)
      ensures Cells() ==
                AfterMove(old(Cells()), ChessNotationToArrayNotation(start), ChessNotationToArrayNotation(end))
    {
      MovePiece(ChessNotationToArrayNotation(start), ChessNotationToArrayNotation(end));
    }

    /** Board::check_legal_move: an empty origin is rejected, an occupied one
        is referred to the piece's movement predicate, which rejects every
        move in this revision. Only the origin is indexed. */
    function CheckLegalMove(beg: Square, end: Square): (legal: bool)
      reads this, board
      requires Valid() && OnBoard(beg)
      ensures !legal
    {
      match board[beg.0, beg.1]
      case Some(piece) => CanMakeMove(piece.pieceType, beg, end)
      case None => false
    }
  }
}
