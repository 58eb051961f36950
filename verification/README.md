# hackdays33 in Dafny: chess moves, a Game of Life step, Fibonacci

This project models three small Rust programs and proves properties of the models.

- **Chess move engine** (`chess/src/main.rs`). Algebraic coordinates ("e4") become array
  indices. An 8 x 8 array of tiles is set up in place. A game holds the board, the side to
  move and an append-only move history. `validate_move` gives a legality verdict; only
  pawns have a rule. `move_piece` moves a piece without any check and appends to the
  history. Pieces are identified by their starting square.
- **Conway step** (`conway/src/main.rs`). `next_state` applies the birth/survival rule on a
  25 x 25 grid with dead borders. One pass of the generation loop fills a fresh buffer from
  the old grid and then replaces the grid with it.
- **Fibonacci** (`fibonacci/src/main.rs`). The iterative two-accumulator loop is proved equal
  to the recursive definition.

Files: `wrappers.dfy` (the `Option` type; `None` stands for a Rust panic),
`chess_coordinates.dfy` (module `ChessCoordinates`), `chess.dfy` (module `Chess`: pieces,
tiles, setup, the `Game` class), `chess_tests.dfy` (module `ChessTests`: the Rust unit tests
as verified scenarios), `conway.dfy` (module `Conway`), `fibonacci.dfy` (module `Fibonacci`).

Modelling choices:
- `usize` is `nat`. The board is an `array2<Tile>` indexed `tiles[y, x]`, as the source
  indexes `tiles[y][x]`.
- The move history is a `seq<Move>` field that `MovePiece` reassigns.
- Rust panics become `None`: a coordinate text that cannot be parsed, and the `usize`
  underflow of `start.y - 1` and `start.y - 2` for White pawns. This follows a debug build,
  where the subtraction panics.
- Where the source indexes the board without a bounds check, the model requires the
  square to be on the board: the start square of `validate_move` when the end square is on
  the board (an off-board end is refused before the start is read), and both squares of
  `move_piece`.

The model follows the code as written, not standard chess:
- The back rank reads Rook, Bishop, Knight, Queen, King, Knight, Bishop, Rook.
- The stamping loop stores the row index in a tile's `x` and the column index in its `y`.
  It also gives each piece the starting position (row, column). Starting positions are
  still pairwise distinct, so piece identity is unaffected.
- `captured_piece` is always an `Empty` Black piece at (0, 0), never the displaced piece.
- `validate_move` checks neither occupancy nor turn, and it can panic.
- Pawns have no diagonal capture, so the capture unit test's move is refused.

## Model

| member | source | states |
|---|---|---|
| `ChessCoordinates.TrimStart` | chess/src/main.rs:275-276 | the result is a suffix of the input; everything dropped is whitespace; the result does not start with whitespace |
| `ChessCoordinates.TrimEnd` | chess/src/main.rs:275-276 | the result is a prefix of the input; everything dropped is whitespace; the result does not end with whitespace |
| `ChessCoordinates.Trim` | chess/src/main.rs:275-276 | the trimmed text neither starts nor ends with whitespace |
| `ChessCoordinates.IndexOf` | chess/src/main.rs:278-287 | `position` finds the first index holding the character, and finds nothing exactly when the character is absent |
| `ChessCoordinates.ParseCoordinate` | chess/src/main.rs:274-290 | parsing succeeds exactly when the trimmed text has two or more characters, a file letter `a`-`h` first and a rank digit `1`-`8` second; on success the labels at the parsed x and y are those two characters |
| `ChessCoordinates.OffBoard` | chess/src/main.rs:307-312 | a square is on the board exactly when both indices have a label, i.e. x < 8 and y < 8 |
| `ChessCoordinates.LabelsDistinct` | chess/src/main.rs:1-2 | the 16 labels are not whitespace, and no label repeats within its set |
| `ChessCoordinates.ParseRoundTrip` | chess/src/main.rs:274-290 | rendering (x, y) with the labels and parsing it back gives (x, y); leading whitespace and anything after the second character are ignored |
| `ChessCoordinates.ParseFileAndRank` | chess/src/main.rs:259-290 | the f-th file letter maps to column f, and rank digit d maps to row 8 - d |
| `ChessCoordinates.ParseC4` | chess/src/main.rs:321-325 | "c4" parses to (2, 4) |
| `ChessCoordinates.ParseD3` | chess/src/main.rs:327-331 | "d3" parses to (3, 5) |
| `ChessCoordinates.ParseRejectsZ9` | chess/src/main.rs:333-337 | "z9" fails to parse |
| `ChessCoordinates.ParsedIsOnBoard` | chess/src/main.rs:274-290 | every parsed square is on the board |
| `Chess.SamePieceIsEquivalence` | chess/src/main.rs:38-42 | piece equality is reflexive, symmetric and transitive |
| `Chess.SamePieceIgnoresKindAndColour` | chess/src/main.rs:38-42 | two pieces are equal exactly when they differ at most in kind and colour |
| `Chess.BackRank` | chess/src/main.rs:208-222 | rooks on columns 0 and 7, bishops on 1 and 6, knights on 2 and 5, the queen on 3, the king on 4; never a pawn or `Empty` |
| `Chess.SetPawnRow` | chess/src/main.rs:206 | the row becomes eight pawn tiles of the colour; other rows are unchanged |
| `Chess.SetBackRank` | chess/src/main.rs:208-241 | each tile of the row gets the back-rank piece of its column in the colour and keeps its own x and y; other rows are unchanged |
| `Chess.SetupBoard` | chess/src/main.rs:204-257 | every tile `[r, c]` becomes `SetupTile(r, c, old tile)`: its kind and colour are placed on rows 0, 1, 6 and 7 and kept elsewhere; the tile and its piece are stamped (r, c) |
| `Chess.SetupLayout` | chess/src/main.rs:204-241 | starting from `Empty` tiles: rows 0-1 are Black pieces and rows 6-7 White pieces; pawns are exactly rows 1 and 6; the back ranks follow `BackRank`; rows 2-5 stay `Empty` |
| `Chess.SetupIdentities` | chess/src/main.rs:243-256 | tile `[r, c]` has x = r, y = c and starting position (r, c); no two tiles hold equal pieces |
| `Chess.SetupCounts` | chess/src/main.rs:204-241 | setup from `Empty` tiles leaves exactly 16 pieces of each colour |
| `Chess.NeverMovedAfterAppend` | chess/src/main.rs:158-165 | after one more history entry, a piece has not moved exactly when it had not moved before and is not the entry's piece |
| `Chess.Game.constructor` | chess/src/main.rs:183-186 | a new game has 64 default tiles (`Empty` White at (0, 0)), the given turn and an empty history |
| `Chess.Game.ValidateMove` | chess/src/main.rs:112-156 | an off-board end gives false. Otherwise the move is accepted exactly when the start piece is a pawn moving straight one row forward, or two on its first move; White moves toward row 0 and Black toward row 7. Any other kind, `Empty` included, gives false. The verdict is a panic exactly when a White pawn's `usize` subtraction underflows |
| `Chess.Game.PiecesFirstMove` | chess/src/main.rs:158-165 | true exactly when no history entry holds a piece equal to the given one |
| `Chess.Game.MovePiece` | chess/src/main.rs:106-110 | the end tile receives the start piece; the start piece becomes `Empty` with colour and identity kept; no other tile changes; the history gains entry number `|old history|` with that piece, an `Empty` Black capture, start and end; the moved piece then counts as moved |
| `ChessTests.NewGame` | chess/src/main.rs:386-390 | a test's game: fresh, empty history, every tile as setup makes it from a default tile |
| `ChessTests.Parse` | chess/src/main.rs:274-290 | `parse_coordinate` on the two-character label of (x, y), as the tests call it, gives (x, y) |
| `ChessTests.SetupPlacesSixteenPerColour` | chess/src/main.rs:204-256 | after setup the board holds 16 White and 16 Black pieces |
| `ChessTests.PiecesCannotMoveOffTheBoard` | chess/src/main.rs:342-369 | e2 to (10, 10) is refused |
| `ChessTests.PawnsCanMoveOneForward` | chess/src/main.rs:371-397 | f2 to f3 is accepted |
| `ChessTests.PawnsCanMoveTwoForwardOnFirstMove` | chess/src/main.rs:399-425 | e2 to e4 is accepted |
| `ChessTests.PawnsCannotMoveTwoForwardAfterFirstMove` | chess/src/main.rs:427-457 | after e2 to e4, d4 to e6 is refused, and the piece on d4 is `Empty`, so the first-move rule plays no part |
| `ChessTests.MovedPawnCannotMoveTwoForward` | chess/src/main.rs:428-450 | after e2 to e4, the same pawn may not go e4 to e6 |
| `ChessTests.PawnsCannotMoveMoreThanTwoForward` | chess/src/main.rs:459-485 | e2 to e6 is refused |
| `ChessTests.PawnsCannotMoveDiagonallyWhenNotCapturing` | chess/src/main.rs:487-513 | e2 to d3 is refused |
| `ChessTests.DiagonalCaptureIsRefused` | chess/src/main.rs:515-545 | after forcing e2 to e6, c7 to d6 is refused (the test expects acceptance) |
| `Conway.NextState` | conway/src/main.rs:65-110 | with s the sum of the eight surrounding cells (outside counting 0): s < 2 or s > 3 gives 0, s = 3 gives 1, s = 2 keeps the cell's value |
| `Conway.Step` | conway/src/main.rs:52-59 | the next grid is 25 x 25, and each cell is `NextState` of that cell on the previous grid |
| `Conway.Generation` | conway/src/main.rs:52-60 | the buffer ends holding every cell of the next generation, and the grid becomes that buffer |
| `Conway.NextStateZeroOne` | conway/src/main.rs:101-109 | on a 0/1 grid every next value is 0 or 1 |
| `Conway.StepPreservesZeroOne` | conway/src/main.rs:52-60 | a generation keeps a 0/1 grid 0/1 |
| `Conway.StepOfDeadGrid` | conway/src/main.rs:65-110 | an all-zero grid stays all zero |
| `Conway.NeighbourSumExcludesCell` | conway/src/main.rs:92-99 | changing a cell does not change its own neighbour score |
| `Conway.CornerHasThreeNeighbours` | conway/src/main.rs:66-90 | the corner cell's score is the sum of its three in-grid neighbours: no wrap-around |
| `Fibonacci.Fibonacci` | fibonacci/src/main.rs:25-40 | n < 2, negatives included, is returned as is; every n >= 0 gives F(n), where F(0) = 0, F(1) = 1, F(k) = F(k-1) + F(k-2); the result is non-negative for n >= 0 |

## Left out

- Rendering and I/O are not modelled: `Tile`'s `Display`, both `draw_board` functions, Conway's `draw`, every `main` body, and the stdin reads.
- `fahrenheit_to_celsius/src/main.rs` is not part of this model. It is floating-point arithmetic and stdin parsing.
- `current_turn` is carried as a field. The source never reads it.
- The `end_tile` read in `validate_move` is not modelled. Its value is never used.
- Knight, Bishop, Rook, Queen and King have no rule in the source, and the model refuses them too. Pawn captures, en passant, castling, promotion and check are absent from the source and from the model.
- Chess.Game.ValidateMove: an off-board start square with an on-board end is excluded by a precondition. There the source would panic on the array index. With both squares off the board the move is refused, as in the source.
- Chess.Game.MovePiece: both squares must be on the board. The source would panic on the array index.
- Panics are modelled as `None`, not as process aborts. `None` follows a debug build. In a release build the wrapped subtraction never equals `end.y`, so the move is refused instead.
- Text is a sequence of characters, not UTF-8 bytes. The byte slices `[0..1]` and `[1..2]` of `parse_coordinate` panic only when the first or second trimmed character is missing or not ASCII. Every label is ASCII, so `ParseCoordinate` returns `None` on exactly those inputs, and the panic coincides with `None`.
- Fibonacci.Fibonacci: integers are unbounded, so the `i128` overflow of large inputs is not modelled.
- Conway.NextState: cell values are unbounded naturals, so a `usize` overflow of the neighbour sum is not modelled.
- Conway.Generation models one pass of the loop body. The endless `loop` that waits for input between generations is left out, as is the initial pattern.

## Findings

| source | as written | input that shows it | evidently intended | confidence | as-written member | corrected member |
|---|---|---|---|---|---|---|
| chess/src/main.rs:427-457 | after e2 to e4 the test validates d4 to e6; d4 is empty, so the move is refused whatever the first-move rule says | the test's own move d4 to e6 after e2 to e4 | validate the moved pawn's second double step, e4 to e6, which the first-move rule refuses | not executed | `ChessTests.PawnsCannotMoveTwoForwardAfterFirstMove` | `ChessTests.MovedPawnCannotMoveTwoForward` |
