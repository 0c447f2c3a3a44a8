# chess_in_rust board core, modelled in Dafny

This project models the board core of the `rust_chess` library (`src/lib.rs`):
the piece kinds with the has-moved flag carried inside `Pawn`, `Rook` and
`King`, colours and pieces, their display glyphs, the conversion of algebraic
square names (FIDE Laws of Chess, Appendix C) to array indices, the standard
starting position, the one mutation primitive `Board::move_piece`, and the
move-legality check `Board::check_legal_move`.

In this revision of the library there is no movement geometry, no path
obstruction, no capture rule, no castling, en passant or promotion, and no
turn alternation. `PieceType::ret_can_make_move` is a stub that returns
`false`. The model follows the code as written and adds none of these.

Modules (one per component of `src/lib.rs`):

- `Ascii` (`ascii.dfy`): Rust's `char::to_ascii_uppercase` and
  `char::to_ascii_lowercase`, which the glyph and notation code call.
- `Pieces` (`pieces.dfy`): `Color`, `PieceType`, `Piece`, `Color::is_white`
  (`IsWhite`), the glyphs, the `ret_can_make_move` stub, `build_piece`
  (`BuildPiece`), and `MarkMoved`, the flag rewrite that `move_piece` applies
  to the origin piece.
- `Notation` (`notation.dfy`): `chess_notation_to_array_notation` and the
  canonical name of a square, its inverse. Rank index 0 is the chess 8th rank.
- `Grids` (`grids.dfy`): the 8x8 array seen as a value (`Grid`, eight rows of
  eight cells), `AfterMove`, which specifies `move_piece` on that value,
  `Replay`, which makes a sequence of moves, and piece counts.
- `Setup` (`setup.dfy`): the opening layout square by square
  (`StartingCell`, `StartingGrid`), and `build_starting_board` as an
  imperative method over an `array2` proved to produce it. The three moves of
  the driver program in `src/main.rs` are stated as lemmas over this position.
- `Chess` (`chess.dfy`): the class `Board` with the `array2` field `board` and
  the `i8` fields `turn` and `turnNumber`. `MovePiece` updates the array in
  place and is proved to leave `Cells()` equal to `AfterMove` of the old cells.

A move from a square onto itself empties that square: the copy onto the
destination is followed by the clear of the origin, and `AfterMove` states
this. Moving from an empty square empties the destination. Indexing outside
the 8x8 array panics in Rust. The model states this as a precondition
(`OnBoard`). The panics of `chess_notation_to_array_notation` (a string
shorter than two characters, or an unsigned subtraction below zero) are also
a precondition (`Converts`). Letters past `H` convert without a panic to a
file index of 8 or more, and `OnBoardExactlyForSquareNames` says so.

Three points where this revision differs from what a complete engine would do:

- There is no real legality check. The movement predicate is a stub, so
  `CheckLegalMove` rejects every move.
- Bad notation is not reported as an input error. The code panics, or it
  accepts letters past `H` and panics later on indexing.
- The turn is not a colour that alternates. The code keeps two `i8`
  counters, both 0, and nothing changes them.

## Model

| member | source | states |
|---|---|---|
| `Ascii.ToAsciiUppercase` | src/lib.rs:191 | only lower-case ASCII letters change, each to the upper-case letter at the same place in the alphabet; the result is never a lower-case letter |
| `Ascii.ToAsciiLowercase` | src/lib.rs:48 | only upper-case ASCII letters change, each to the lower-case letter at the same place in the alphabet; the result is never an upper-case letter |
| `Pieces.IsWhite` | src/lib.rs:33-35 | true exactly for White, false for Black |
| `Pieces.BuildPiece` | src/lib.rs:152-156 | the cell is occupied by exactly the given kind and colour; `Setup.PlaceBackRank` pins each of its uses in the opening position |
| `Pieces.TypeAsChar` | src/lib.rs:11-19 | the glyph of a kind is one of P, R, B, N, K, Q |
| `Pieces.TypeAsCharIdentifiesKind` | src/lib.rs:11-19 | two piece types share a glyph exactly when they are the same kind, whatever their has-moved flags |
| `Pieces.CanMakeMove` | src/lib.rs:22-24 | the movement predicate rejects every move of every kind |
| `Pieces.PieceAsChar` | src/lib.rs:44-50 | the glyph is in PRBNKQ exactly for White pieces and in prbnkq exactly for Black ones, and upper-casing it gives the kind's glyph |
| `Pieces.PieceAsCharIdentifiesPiece` | src/lib.rs:44-50 | two pieces share a glyph exactly when they have the same colour and the same kind |
| `Pieces.MarkMoved` | src/lib.rs:101-126 | the colour and the kind stay; Pawn, Rook and King always end with the flag set; a piece whose kind has no flag, or whose flag is already set, is unchanged, so a flag never reverts |
| `Notation.ChessNotationToArrayNotation` | src/lib.rs:190-195 | the rank index is 7 minus the digit's distance from '1', so it lies in 0..7 with digit '8' at 0; the file index is the upper-cased letter's distance from 'A'; a square name lands on the board |
| `Notation.OnBoardExactlyForSquareNames` | src/lib.rs:190-195 | a converted string lands on the board exactly when its first character is a letter A-H or a-h |
| `Notation.SquareNameRoundTrip` | src/lib.rs:190-195 | converting the canonical name ('A' + file, '1' + 7 - rank) of an on-board square gives the square back |
| `Notation.ConvertThenName` | src/lib.rs:190-195 | naming the converted square of a square name gives its upper-cased first two characters |
| `Notation.ConversionReadsTwoCharsIgnoringCase` | src/lib.rs:191-192 | two strings whose first characters agree up to case and whose second characters are equal convert alike, whatever follows |
| `Notation.ConversionInjective` | src/lib.rs:190-195 | two square names convert to the same square exactly when their letters agree up to case and their digits are equal |
| `Grids.AfterMove` | src/lib.rs:95-130 | the origin ends empty, also when it is the destination; for a different destination the destination ends with the origin's piece flagged as moved, or empty when the origin was empty, replacing any occupant; every other square is unchanged |
| `Grids.CountAfterMove` | src/lib.rs:95-130 | for any property of pieces that the flag rewrite does not affect, a move loses one piece with it exactly when the destination held one, and gains none |
| `Grids.PieceCountAfterMove` | src/lib.rs:128-129 | a move onto an occupied square removes one piece, any other move keeps the count |
| `Grids.KingCountAfterMove` | src/lib.rs:95-130 | a move never adds a king of either colour |
| `Grids.ReplayCounts` | src/lib.rs:95-130 | any sequence of moves made one after another never increases the piece count or either colour's king count |
| `Setup.ReachableCounts` | src/lib.rs:95-130 | every position reached from the opening by any sequence of moves holds at most 32 pieces and at most one king per colour |
| `Setup.StartingPieceCount` | src/lib.rs:157-188 | the opening position holds exactly 32 pieces |
| `Setup.StartingKings` | src/lib.rs:157-188 | each colour has exactly one king, an unmoved one on file index 4 of its own back rank |
| `Setup.StartingPositionByName` | src/lib.rs:157-188 | by square name: White fills ranks 1 and 2, Black ranks 7 and 8, ranks 3-6 are empty, the kings stand on E1 and E8 and the queens on D1 and D8 |
| `Setup.StartingPositionMirrored` | src/lib.rs:157-188 | every square and its mirror across the middle hold the same kind in opposite colours, or are both empty |
| `Setup.PlaceBackRank` | src/lib.rs:159-166 | the eight assignments put R N B Q K B N R of one colour, flags clear, on one rank and change no other rank |
| `Setup.BuildStartingBoard` | src/lib.rs:157-188 | the array it returns is fresh, 8x8, and holds the opening position square by square |
| `Setup.DriverMovesPlacement` | src/main.rs:11-13 | after a1-d3, e2-e3, d1-c4 from the opening, d3 holds a moved White rook, e3 a moved White pawn, c4 the White queen, and a1, e2, d1 are empty |
| `Setup.DriverMovesKeepAllPieces` | src/main.rs:11-13 | after those three moves all 32 pieces remain |
| `Setup.DriverSquares` | src/main.rs:11-13 | the names a1, d3, e2, e3, d1, c4 convert to (7,0), (5,3), (6,4), (5,4), (7,3), (4,2) |
| `Chess.Board.Default` | src/lib.rs:58-66 | a new board holds the opening position in a fresh array, with turn and turn number 0 |
| `Chess.Board.BuildStartingBoard` | src/lib.rs:86-88 | the board is replaced by the opening position; the counters are left as they were |
| `Chess.Board.MovePiece` | src/lib.rs:95-130 | the array afterwards holds `AfterMove` of the position before; `turn`, `turnNumber` and the array reference do not change |
| `Chess.Board.MovePieceWithChessNotation` | src/lib.rs:132-138 | for two square names, the effect is `MovePiece` on their converted squares |
| `Chess.Board.CheckLegalMove` | src/lib.rs:140-149 | every move is rejected: an empty origin directly, an occupied one by the stubbed movement predicate; only the origin must be on the board |

## Left out

- `Board::print_board` and `Board::print_piece` (src/lib.rs:68-93) write to standard output. `print_piece` also panics on an empty square. Neither is modelled.
- The two `println!` calls in `move_piece_with_chess_notation` (src/lib.rs:135-136) are output only. The method models the move alone.
- `src/main.rs` is a driver that prints. Only the effect of its three moves is stated, as lemmas over values.
- Rust panics are preconditions, not modelled error paths. This covers a notation string shorter than two characters, an underflowing subtraction in `chess_notation_to_array_notation`, and indexing outside the 8x8 array. In a release build the subtraction would wrap around instead; that build mode is not modelled.
- Movement geometry, obstruction, capture colour rules, castling, en passant, promotion, turn alternation and check detection do not exist in this revision, so they are not modelled.
- The derived `Debug`, `Clone`, `Copy` and `PartialEq` implementations are language plumbing. Dafny datatypes have structural equality.
