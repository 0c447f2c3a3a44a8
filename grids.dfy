/** A value view of the board: the 8x8 array of optional pieces as a sequence
    of eight rows, the effect of Board::move_piece on it, and piece counts. */
module Grids {
  import opened Pieces
  import opened Notation

  type Cell = Option<Piece>

  type Grid = seq<seq<Cell>>

  predicate IsGrid(g: Grid) {
    |g| == 8 && forall r :: 0 <= r < 8 ==> |g[r]| == 8
  }

  function At(g: Grid, sq: Square): Cell
    requires IsGrid(g) && OnBoard(sq)
  {
    g[sq.0][sq.1]
  }

  /** The grid an 8x8 array currently holds. */
  ghost function GridOf(a: array2<Cell>): (g: Grid)
    reads a
    requires a.Length0 == 8 && a.Length1 == 8
    ensures IsGrid(g)
    ensures forall r, f :: 0 <= r < 8 && 0 <= f < 8 ==> g[r][f] == a[r, f]
  {
    seq(8, r requires 0 <= r < 8 reads a => seq(8, f requires 0 <= f < 8 reads a => a[r, f]))
  }

  /** Grids are equal when they agree on every square. */
  lemma GridsEqual(g: Grid, h: Grid)
    requires IsGrid(g) && IsGrid(h)
    requires forall r, f :: 0 <= r < 8 && 0 <= f < 8 ==> g[r][f] == h[r][f]
    ensures g == h
  {
    forall r | 0 <= r < 8 ensures g[r] == h[r] {
      assert forall f :: 0 <= f < 8 ==> g[r][f] == h[r][f];
    }
  }

  /** The grid with one square overwritten. */
  function Place(g: Grid, sq: Square, c: Cell): (h: Grid)
    requires IsGrid(g) && OnBoard(sq)
    ensures IsGrid(h)
    ensures At(h, sq) == c
    ensures forall r, f :: 0 <= r < 8 && 0 <= f < 8 && (r, f) != sq ==> h[r][f] == g[r][f]
  {
    g[sq.0 := g[sq.0][sq.1 := c]]
  }

  /** Board::move_piece on the value view, step by step as the source does it:
      flag the origin piece as moved, copy the origin cell onto the destination,
      clear the origin. */
  function AfterMove(g: Grid, beg: Square, end: Square): (h: Grid)
    requires IsGrid(g) && OnBoard(beg) && OnBoard(end)
    ensures IsGrid(h)
    // the origin is always left empty, also when it is the destination
    ensures At(h, beg) == None
    // the destination holds the flagged origin piece, overwriting any occupant
    ensures beg != end ==>
              At(h, end) == (match At(g, beg) case Some(p) => Some(MarkMoved(p)) case None => None)
    // nothing else changes
    ensures forall r, f :: 0 <= r < 8 && 0 <= f < 8 && (r, f) != beg && (r, f) != end ==>
              h[r][f] == g[r][f]
  {
    var flagged := match At(g, beg) case Some(p) => Place(g, beg, Some(MarkMoved(p))) case None => g;
    var copied := Place(flagged, end, At(flagged, beg));
    Place(copied, beg, None)
  }

  /** Whether a cell holds a piece that satisfies P. */
  function Hit(c: Cell, P: Piece -> bool): nat
  {
    match c case Some(p) => if P(p) then 1 else 0 case None => 0
  }

  function RowCount(row: seq<Cell>, P: Piece -> bool): nat
  {
    if row == [] then 0 else Hit(row[0], P) + RowCount(row[1..], P)
  }

  /** The number of pieces on the grid that satisfy P. */
  function Count(g: Grid, P: Piece -> bool): nat
  {
    if g == [] then 0 else RowCount(g[0], P) + Count(g[1..], P)
  }

  predicate AnyPiece(p: Piece) { true }

  function KingOf(c: Color): Piece -> bool
  {
    (p: Piece) => p.pieceType.King? && p.color == c
  }

  function PieceCount(g: Grid): nat
  {
    Count(g, AnyPiece)
  }

  function KingCount(g: Grid, c: Color): nat
  {
    Count(g, KingOf(c))
  }

  /** A row on which every square satisfies P counts all its squares. */
  lemma {:induction false} RowCountFull(row: seq<Cell>, P: Piece -> bool)
    requires forall i :: 0 <= i < |row| ==> Hit(row[i], P) == 1
    ensures RowCount(row, P) == |row|
  {
    if row != [] {
      RowCountFull(row[1..], P);
    }
  }

  /** A row with at most square k satisfying P counts one for k or nothing. */
  lemma {:induction false} RowCountAtMost(row: seq<Cell>, k: int, P: Piece -> bool)
    requires forall i :: 0 <= i < |row| && i != k ==> Hit(row[i], P) == 0
    ensures RowCount(row, P) == if 0 <= k < |row| then Hit(row[k], P) else 0
  {
    if row != [] {
      RowCountAtMost(row[1..], k - 1, P);
    }
  }

  /** Count walks the grid row by row. */
  lemma CountFrom(g: Grid, k: nat, P: Piece -> bool)
    requires k < |g|
    ensures Count(g[k..], P) == RowCount(g[k], P) + Count(g[k + 1..], P)
  {
    assert g[k..][1..] == g[k + 1..];
  }

  /** The count of a grid is the sum of its eight row counts. */
  lemma CountByRows(g: Grid, P: Piece -> bool)
    requires IsGrid(g)
    ensures Count(g, P) == RowCount(g[0], P) + RowCount(g[1], P) + RowCount(g[2], P) + RowCount(g[3], P)
                         + RowCount(g[4], P) + RowCount(g[5], P) + RowCount(g[6], P) + RowCount(g[7], P)
  {
    assert g[0..] == g && g[8..] == [];
    CountFrom(g, 0, P);
    CountFrom(g, 1, P);
    CountFrom(g, 2, P);
    CountFrom(g, 3, P);
    CountFrom(g, 4, P);
    CountFrom(g, 5, P);
    CountFrom(g, 6, P);
    CountFrom(g, 7, P);
  }

  lemma {:induction false} RowCountUpdate(row: seq<Cell>, i: nat, c: Cell, P: Piece -> bool)
    requires i < |row|
    ensures RowCount(row[i := c], P) + Hit(row[i], P) == RowCount(row, P) + Hit(c, P)
  {
    if i > 0 {
      assert row[i := c][1..] == row[1..][i - 1 := c];
      RowCountUpdate(row[1..], i - 1, c, P);
    } else {
      assert row[i := c][1..] == row[1..];
    }
  }

  lemma {:induction false} CountUpdateRow(g: Grid, r: nat, row: seq<Cell>, P: Piece -> bool)
    requires r < |g|
    ensures Count(g[r := row], P) + RowCount(g[r], P) == Count(g, P) + RowCount(row, P)
  {
    if r > 0 {
      assert g[r := row][1..] == g[1..][r - 1 := row];
      CountUpdateRow(g[1..], r - 1, row, P);
    } else {
      assert g[r := row][1..] == g[1..];
    }
  }

  /** Overwriting one square changes the count only by what left and what came. */
  lemma CountPlace(g: Grid, sq: Square, c: Cell, P: Piece -> bool)
    requires IsGrid(g) && OnBoard(sq)
    ensures Count(Place(g, sq, c), P) + Hit(At(g, sq), P) == Count(g, P) + Hit(c, P)
  {
    RowCountUpdate(g[sq.0], sq.1, c, P);
    CountUpdateRow(g, sq.0, g[sq.0][sq.1 := c], P);
  }

  /** For a property of pieces that setting the has-moved flag does not affect
      (colour, kind, occupancy), a move loses exactly the destination's former
      occupant when that one satisfied it: nothing is created and only a
      capture by overwriting removes a piece. */
  lemma CountAfterMove(g: Grid, beg: Square, end: Square, P: Piece -> bool)
    requires IsGrid(g) && OnBoard(beg) && OnBoard(end)
    requires forall p :: P(MarkMoved(p)) == P(p)
    ensures Count(AfterMove(g, beg, end), P) + Hit(At(g, end), P) == Count(g, P)
  {
    var flagged := match At(g, beg) case Some(p) => Place(g, beg, Some(MarkMoved(p))) case None => g;
    if At(g, beg).Some? {
      CountPlace(g, beg, Some(MarkMoved(At(g, beg).value)), P);
    }
    assert Count(flagged, P) == Count(g, P);
    var copied := Place(flagged, end, At(flagged, beg));
    CountPlace(flagged, end, At(flagged, beg), P);
    CountPlace(copied, beg, None, P);
  }

  /** A move never adds a piece; it removes one exactly when it lands on an
      occupied square. */
  lemma PieceCountAfterMove(g: Grid, beg: Square, end: Square)
    requires IsGrid(g) && OnBoard(beg) && OnBoard(end)
    ensures PieceCount(AfterMove(g, beg, end)) ==
              if At(g, end).Some? then PieceCount(g) - 1 else PieceCount(g)
  {
    CountAfterMove(g, beg, end, AnyPiece);
  }

  /** A move never adds a king of either colour. */
  lemma KingCountAfterMove(g: Grid, beg: Square, end: Square, c: Color)
    requires IsGrid(g) && OnBoard(beg) && OnBoard(end)
    ensures KingCount(AfterMove(g, beg, end), c) <= KingCount(g, c)
  {
    CountAfterMove(g, beg, end, KingOf(c));
  }

  /** Every move of the sequence names two on-board squares. */
  predicate MovesOnBoard(moves: seq<(Square, Square)>) {
    forall i :: 0 <= i < |moves| ==> OnBoard(moves[i].0) && OnBoard(moves[i].1)
  }

  /** The position reached by making the moves one after another with
      Board::move_piece. */
  function Replay(g: Grid, moves: seq<(Square, Square)>): (h: Grid)
    requires IsGrid(g) && MovesOnBoard(moves)
    ensures IsGrid(h)
    decreases |moves|
  {
    if moves == [] then g
    else Replay(AfterMove(g, moves[0].0, moves[0].1), moves[1..])
  }

  /** No sequence of moves adds a piece, or a king of either colour. */
  lemma {:induction false} ReplayCounts(g: Grid, moves: seq<(Square, Square)>, c: Color)
    requires IsGrid(g) && MovesOnBoard(moves)
    ensures PieceCount(Replay(g, moves)) <= PieceCount(g)
    ensures KingCount(Replay(g, moves), c) <= KingCount(g, c)
    decreases |moves|
  {
    if moves != [] {
      var next := AfterMove(g, moves[0].0, moves[0].1);
      PieceCountAfterMove(g, moves[0].0, moves[0].1);
      KingCountAfterMove(g, moves[0].0, moves[0].1, c);
      ReplayCounts(next, moves[1..], c);
    }
  }
}
