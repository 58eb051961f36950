/**
 * The unit tests of the chess program as verified scenarios: each builds a game,
 * sets up the board, possibly forces a move, and returns the verdict the tests assert on.
 */
module ChessTests {
  import opened Wrappers
  import opened ChessCoordinates
  import opened Chess

  /** The board every test starts from, as rows of default tiles. */
  const DefaultBoard: seq<seq<Tile>> := seq(8, _ => seq(8, _ => DefaultTile))

  /** A game created as the tests create it, with its board set up. */
  method NewGame(turn: Colour) returns (game: Game)
    ensures fresh(game) && fresh(game.tiles) && game.Valid()
    ensures game.history == [] && game.currentTurn == turn
    ensures forall r, c :: 0 <= r < 8 && 0 <= c < 8 ==> game.tiles[r, c] == SetupTile(r, c, DefaultTile)
  {
    game := new Game(turn);
    SetupBoard(game.tiles);
  }

  /**
   * `parse_coordinate` as the tests call it, on a literal that names the square (x, y);
   * the tests would panic on any other.
   */
  method Parse(s: string, ghost x: nat, ghost y: nat) returns (p: Position)
    requires x < 8 && y < 8 && s == [ColLabels[x], RowLabels[y]]
    ensures p == Position(x, y)
  {
    ParseRoundTrip([], x, y, []);
    assert [] + [ColLabels[x], RowLabels[y]] + [] == s;
    p := ParseCoordinate(s).value;
  }

  /** After setup each side has 16 pieces. */
  method SetupPlacesSixteenPerColour() returns (white: nat, black: nat)
    ensures white == 16 && black == 16
  {
    var game := NewGame(White);
    assert SetUpFromEmpty(DefaultBoard, Cells(game.tiles));
    SetupCounts(DefaultBoard, Cells(game.tiles), White);
    SetupCounts(DefaultBoard, Cells(game.tiles), Black);
    white := CountInRows(Cells(game.tiles), 8, White);
    black := CountInRows(Cells(game.tiles), 8, Black);
  }

  /** A White pawn on e2 cannot move to (10, 10), off the board. */
  method PiecesCannotMoveOffTheBoard() returns (valid: Option<bool>)
    ensures valid == Some(false)
  {
    var game := NewGame(White);
    var start := Parse("e2", 4, 6);
    var end := Position(10, 10);
    valid := game.ValidateMove(start, end);
  }

  /** The White pawn on f2 may step to f3. */
  method PawnsCanMoveOneForward() returns (valid: Option<bool>)
    ensures valid == Some(true)
  {
    var game := NewGame(White);
    var start := Parse("f2", 5, 6);
    var end := Parse("f3", 5, 5);
    valid := game.ValidateMove(start, end);
  }

  /** The White pawn on e2 may advance two squares to e4 on its first move. */
  method PawnsCanMoveTwoForwardOnFirstMove() returns (valid: Option<bool>)
    ensures valid == Some(true)
  {
    var game := NewGame(White);
    var start := Parse("e2", 4, 6);
    var end := Parse("e4", 4, 4);
    valid := game.ValidateMove(start, end);
  }

  /**
   * After e2 to e4 the test checks d4 to e6. The d4 square is empty, so the move is
   * refused for that reason and not because the pawn has moved: `moved` is the piece
   * on d4, whose kind is `Empty`, and `ValidateMove` refuses every non-pawn.
   */
  method PawnsCannotMoveTwoForwardAfterFirstMove() returns (valid: Option<bool>, moved: Piece)
    ensures valid == Some(false)
    ensures moved.kind == Empty
  {
    var game := NewGame(White);
    var start := Parse("e2", 4, 6);
    var end := Parse("e4", 4, 4);
    assert game.tiles[4, 3] == SetupTile(4, 3, DefaultTile);
    game.MovePiece(start, end);
    assert game.tiles[4, 3].piece.kind == Empty;
    start := Parse("d4", 3, 4);
    end := Parse("e6", 4, 2);
    moved := game.tiles[start.y, start.x].piece;
    valid := game.ValidateMove(start, end);
  }

  /** The pawn that went from e2 to e4 may not advance two squares again, to e6. */
  method MovedPawnCannotMoveTwoForward() returns (valid: Option<bool>)
    ensures valid == Some(false)
  {
    var game := NewGame(White);
    var start := Parse("e2", 4, 6);
    var end := Parse("e4", 4, 4);
    game.MovePiece(start, end);
    start := Parse("e4", 4, 4);
    end := Parse("e6", 4, 2);
    valid := game.ValidateMove(start, end);
  }

  /** The White pawn on e2 may not jump four squares to e6. */
  method PawnsCannotMoveMoreThanTwoForward() returns (valid: Option<bool>)
    ensures valid == Some(false)
  {
    var game := NewGame(Black);
    var start := Parse("e2", 4, 6);
    var end := Parse("e6", 4, 2);
    valid := game.ValidateMove(start, end);
  }

  /** The White pawn on e2 may not move diagonally to the empty d3. */
  method PawnsCannotMoveDiagonallyWhenNotCapturing() returns (valid: Option<bool>)
    ensures valid == Some(false)
  {
    var game := NewGame(Black);
    var start := Parse("e2", 4, 6);
    var end := Parse("d3", 3, 5);
    valid := game.ValidateMove(start, end);
  }

  /**
   * The capture scenario: the White pawn is forced from e2 to e6 and the Black pawn on
   * c7 then tries d6. No capture rule exists, so the diagonal move is refused.
   */
  method DiagonalCaptureIsRefused() returns (valid: Option<bool>)
    ensures valid == Some(false)
  {
    var game := NewGame(Black);
    var start := Parse("e2", 4, 6);
    var end := Parse("e6", 4, 2);
    assert game.tiles[1, 2] == SetupTile(1, 2, DefaultTile);
    game.MovePiece(start, end);
    assert game.tiles[1, 2].piece == Piece(Pawn, Black, Position(1, 2));
    start := Parse("c7", 2, 1);
    end := Parse("d6", 3, 2);
    valid := game.ValidateMove(start, end);
  }
}
