/** The standard starting position: build_starting_board, which fills a local
    8x8 array in place, proved against a square-by-square description of the
    opening layout. */
module Setup {
  import opened Pieces
  import opened Notation
  import opened Grids

  /** The kind on file f of either back rank: R N B Q K B N R, flags clear. */
  function BackRankKind(f: nat): PieceType
    requires f < 8
  {
    match f
    case 0 => Rook(false)
    case 1 => Knight
    case 2 => Bishop
    case 3 => Queen
    case 4 => King(false)
    case 5 => Bishop
    case 6 => Knight
    case _ => Rook(false)
  }

  /** What the opening position holds on each square: Black on rank indices 0
      and 1 (chess ranks 8 and 7), White on 6 and 7 (chess ranks 2 and 1). */
  function StartingCell(r: nat, f: nat): Cell
    requires r < 8 && f < 8
  {
    if r == 0 then Some(Piece(BackRankKind(f), Black))
    else if r == 1 then Some(Piece(Pawn(false), Black))
    else if r == 6 then Some(Piece(Pawn(false), White))
    else if r == 7 then Some(Piece(BackRankKind(f), White))
    else None
  }

  function StartingGrid(): (g: Grid)
    ensures IsGrid(g)
    ensures forall r, f :: 0 <= r < 8 && 0 <= f < 8 ==> g[r][f] == StartingCell(r, f)
  {
    seq(8, r requires 0 <= r < 8 => seq(8, f requires 0 <= f < 8 => StartingCell(r, f)))
  }

  /** The opening position holds 32 pieces. */
  lemma StartingPieceCount()
    ensures PieceCount(StartingGrid()) == 32
  {
    var g := StartingGrid();
    forall r | 0 <= r < 8 ensures RowCount(g[r], AnyPiece) == if 2 <= r < 6 then 0 else 8 {
      if 2 <= r < 6 {
        RowCountAtMost(g[r], -1, AnyPiece);
      } else {
        RowCountFull(g[r], AnyPiece);
      }
    }
    CountByRows(g, AnyPiece);
  }

  /** The opening position holds one king of each colour, on file index 4 (the
      e-file) of its own back rank. */
  lemma StartingKings(c: Color)
    ensures KingCount(StartingGrid(), c) == 1
    ensures At(StartingGrid(), (if c == Black then 0 else 7, 4)) == Some(Piece(King(false), c))
  {
    var g := StartingGrid();
    forall r | 0 <= r < 8
      ensures RowCount(g[r], KingOf(c)) == if (r == 0 && c == Black) || (r == 7 && c == White) then 1 else 0
    {
      RowCountAtMost(g[r], 4, KingOf(c));
    }
    CountByRows(g, KingOf(c));
  }

  /** Every position reached from the opening by any sequence of moves holds
      at most 32 pieces and at most one king of each colour. */
  lemma ReachableCounts(moves: seq<(Square, Square)>, c: Color)
    requires MovesOnBoard(moves)
    ensures PieceCount(Replay(StartingGrid(), moves)) <= 32
    ensures KingCount(Replay(StartingGrid(), moves), c) <= 1
  {
    StartingPieceCount();
    StartingKings(c);
    ReplayCounts(StartingGrid(), moves, c);
  }

  /** Read through square names: White stands on chess ranks 1 and 2, Black on
      7 and 8, ranks 3 to 6 are empty, and each side has its king on the e-file
      and its queen on the d-file. */
  lemma StartingPositionByName(sq: Square)
    requires OnBoard(sq)
    ensures var name := SquareName(sq);
            && (At(StartingGrid(), sq).Some? <==> name[1] in "1278")
            && (At(StartingGrid(), sq).Some? ==> (At(StartingGrid(), sq).value.color == White <==> name[1] in "12"))
            && (name in {"E1", "E8"} <==> At(StartingGrid(), sq).Some? && At(StartingGrid(), sq).value.pieceType.King?)
            && (name in {"D1", "D8"} <==> At(StartingGrid(), sq).Some? && At(StartingGrid(), sq).value.pieceType.Queen?)
  {
  }

  /** The two sides are set up as mirror images across the middle of the board. */
  lemma StartingPositionMirrored(r: nat, f: nat)
    requires r < 8 && f < 8
    ensures StartingCell(r, f).Some? <==> StartingCell(7 - r, f).Some?
    ensures StartingCell(r, f).Some? ==>
              StartingCell(r, f).value.pieceType == StartingCell(7 - r, f).value.pieceType &&
              StartingCell(r, f).value.color != StartingCell(7 - r, f).value.color
  {
  }

  /** The eight assignments that set up one back rank (lines 159-166 for
      Black on rank index 0, lines 179-186 for White on rank index 7). */
  method PlaceBackRank(board: array2<Cell>, r: nat, c: Color)
    requires board.Length0 == 8 && board.Length1 == 8 && r < 8
    modifies board
    ensures forall f :: 0 <= f < 8 ==> board[r, f] == Some(Piece(BackRankKind(f), c))
    ensures forall r', f :: 0 <= r' < 8 && 0 <= f < 8 && r' != r ==> board[r', f] == old(board[r', f])
  {
    board[r, 0] := BuildPiece(Rook(false), c);
    board[r, 1] := BuildPiece(Knight, c);
    board[r, 2] := BuildPiece(Bishop, c);
    board[r, 3] := BuildPiece(Queen, c);
    board[r, 4] := BuildPiece(King(false), c);
    board[r, 5] := BuildPiece(Bishop, c);
    board[r, 6] := BuildPiece(Knight, c);
    board[r, 7] := BuildPiece(Rook(false), c);
  }

  /** build_starting_board: an array of empty squares, the black back rank,
      both pawn ranks in one loop, the middle ranks cleared again in a nested
      loop, then the white back rank. */
  method BuildStartingBoard() returns (board: array2<Cell>)
    ensures fresh(board) && board.Length0 == 8 && board.Length1 == 8
    ensures GridOf(board) == StartingGrid()
  {
    board := new Cell[8, 8]((_, _) => None);
    PlaceBackRank(board, 0, Black);

    for i := 0 to 8
      invariant forall f :: 0 <= f < 8 ==> board[0, f] == StartingCell(0, f)
      invariant forall f :: 0 <= f < i ==> board[1, f] == StartingCell(1, f) && board[6, f] == StartingCell(6, f)
      invariant forall f :: i <= f < 8 ==> board[1, f] == None && board[6, f] == None
      invariant forall r, f :: (2 <= r < 6 || r == 7) && 0 <= f < 8 ==> board[r, f] == None
    {
      board[1, i] := BuildPiece(Pawn(false), Black);
      board[6, i] := BuildPiece(Pawn(false), White);
    }

    for i := 2 to 6
      invariant forall r, f :: 0 <= r < 7 && 0 <= f < 8 ==> board[r, f] == StartingCell(r, f)
    {
      for j := 0 to 8
        invariant forall r, f :: 0 <= r < 7 && 0 <= f < 8 ==> board[r, f] == StartingCell(r, f)
      {
        board[i, j] := None;
      }
    }

    PlaceBackRank(board, 7, White);
    GridsEqual(GridOf(board), StartingGrid());
  }

  /** The position after the three moves the driver program makes from the
      opening position: a1 (7, 0) to d3 (5, 3), e2 (6, 4) to e3 (5, 4),
      d1 (7, 3) to c4 (4, 2). */
  function DriverPosition(): (g: Grid)
    ensures IsGrid(g)
  {
    var g1 := AfterMove(StartingGrid(), (7, 0), (5, 3));
    var g2 := AfterMove(g1, (6, 4), (5, 4));
    AfterMove(g2, (7, 3), (4, 2))
  }

  /** Each piece the driver moves lands, flagged as moved, where it was sent,
      and its origin is emptied. */
  lemma DriverMovesPlacement()
    ensures At(DriverPosition(), (5, 3)) == Some(Piece(Rook(true), White))
    ensures At(DriverPosition(), (5, 4)) == Some(Piece(Pawn(true), White))
    ensures At(DriverPosition(), (4, 2)) == Some(Piece(Queen, White))
    ensures At(DriverPosition(), (7, 0)) == None
    ensures At(DriverPosition(), (6, 4)) == None
    ensures At(DriverPosition(), (7, 3)) == None
  {
  }

  /** No driver move lands on an occupied square, so all 32 pieces remain. */
  lemma DriverMovesKeepAllPieces()
    ensures PieceCount(DriverPosition()) == 32
  {
    var g0 := StartingGrid();
    StartingPieceCount();
    assert At(g0, (5, 3)) == None;
    PieceCountAfterMove(g0, (7, 0), (5, 3));
    var g1 := AfterMove(g0, (7, 0), (5, 3));
    assert At(g1, (5, 4)) == None;
    PieceCountAfterMove(g1, (6, 4), (5, 4));
    var g2 := AfterMove(g1, (6, 4), (5, 4));
    assert At(g2, (4, 2)) == None;
    PieceCountAfterMove(g2, (7, 3), (4, 2));
  }

  /** The square names the driver program uses, converted. */
  lemma DriverSquares()
    ensures ChessNotationToArrayNotation("a1") == (7, 0) && ChessNotationToArrayNotation("d3") == (5, 3)
    ensures ChessNotationToArrayNotation("e2") == (6, 4) && ChessNotationToArrayNotation("e3") == (5, 4)
    ensures ChessNotationToArrayNotation("d1") == (7, 3) && ChessNotationToArrayNotation("c4") == (4, 2)
  {
  }
}
