/**
 * The chess board, its pieces, the move history and the pawn move check.
 * The board is an 8 x 8 array of tiles indexed `tiles[row, column]`, that is
 * `tiles[position.y, position.x]`.
 */
module Chess {
  import opened Wrappers
  import opened ChessCoordinates

  datatype PieceKind = Pawn | Knight | Bishop | Rook | Queen | King | Empty

  datatype Colour = White | Black

  /** A piece, or the `Empty` marker of an unoccupied tile. */
  datatype Piece = Piece(kind: PieceKind, colour: Colour, startingPosition: Position)

  /** One square of the board with the coordinates stamped on it at setup. */
  datatype Tile = Tile(piece: Piece, x: nat, y: nat)

  /** One entry of the move history. */
  datatype Move = Move(piece: Piece, capturedPiece: Piece, number: nat, start: Position, end: Position)

  /** `Piece::default()`: an `Empty` White marker whose starting position is (0, 0). */
  const DefaultPiece: Piece := Piece(Empty, White, Position(0, 0))

  /** The tile every board square holds before setup. */
  const DefaultTile: Tile := Tile(DefaultPiece, 0, 0)

  /** The `captured_piece` every history entry records: an `Empty` Black marker at (0, 0). */
  const NoCapture: Piece := Piece(Empty, Black, Position(0, 0))

  /**
   * Piece equality: two pieces are the same piece when they started on the same square,
   * whatever their kinds and colours are now.
   */
  predicate SamePiece(a: Piece, b: Piece)
  {
    a.startingPosition == b.startingPosition
  }

  /** Piece equality is an equivalence relation. */
  lemma SamePieceIsEquivalence()
    ensures forall a: Piece :: SamePiece(a, a)
    ensures forall a: Piece, b: Piece :: SamePiece(a, b) ==> SamePiece(b, a)
    ensures forall a: Piece, b: Piece, c: Piece :: SamePiece(a, b) && SamePiece(b, c) ==> SamePiece(a, c)
  {
  }

  /** Piece equality ignores kind and colour, and nothing else. */
  lemma SamePieceIgnoresKindAndColour(a: Piece, b: Piece)
    ensures SamePiece(a, b) <==> a.(kind := b.kind, colour := b.colour) == b
  {
  }

  // ---------------------------------------------------------------- setup

  /** The back rank from left to right. Columns 1 and 6 hold bishops, 2 and 5 knights. */
  function BackRank(column: nat): (k: PieceKind)
    requires column < 8
    ensures k != Pawn && k != Empty
    ensures k == Rook <==> column == 0 || column == 7
    ensures k == Bishop <==> column == 1 || column == 6
    ensures k == Knight <==> column == 2 || column == 5
    ensures k == Queen <==> column == 3
    ensures k == King <==> column == 4
  {
    [Rook, Bishop, Knight, Queen, King, Knight, Bishop, Rook][column]
  }

  /**
   * The tile at `tiles[r, c]` after setup, given the tile there before. Rows 0 and 1
   * receive Black's pieces and rows 6 and 7 White's; rows 2 to 5 keep their kind and colour.
   * The coordinates stamped on the tile and on its piece are (r, c): the row index
   * goes into `x` and the column index into `y`.
   */
  function SetupTile(r: nat, c: nat, before: Tile): Tile
    requires r < 8 && c < 8
  {
    var kind := if r == 0 || r == 7 then BackRank(c)
                else if r == 1 || r == 6 then Pawn
                else before.piece.kind;
    var colour := if r <= 1 then Black else if r >= 6 then White else before.piece.colour;
    Tile(Piece(kind, colour, Position(r, c)), r, c)
  }

  /** Whether the tile written at `[i, j]` comes before the cursor (x, y) of a row-by-row sweep of `[x, y]`. */
  predicate Stamped(i: nat, j: nat, x: nat, y: nat)
  {
    j < y || (j == y && i < x)
  }

  /** Replaces row `r` whole with pawns of `colour`, as `board.tiles[r] = [...; 8]`. */
  method SetPawnRow(tiles: array2<Tile>, r: nat, colour: Colour)
    requires tiles.Length0 == 8 && tiles.Length1 == 8 && r < 8
    modifies tiles
    ensures forall c :: 0 <= c < 8 ==> tiles[r, c] == Tile(Piece(Pawn, colour, Position(0, 0)), 0, r)
    ensures forall i, j :: 0 <= i < 8 && 0 <= j < 8 && i != r ==> tiles[i, j] == old(tiles[i, j])
  {
    forall c | 0 <= c < 8 {
      tiles[r, c] := Tile(Piece(Pawn, colour, Position(0, 0)), 0, r);
    }
  }

  /** Puts the pieces of `colour` on back rank `r`, leaving each tile's coordinates as they were. */
  method SetBackRank(tiles: array2<Tile>, r: nat, colour: Colour)
    requires tiles.Length0 == 8 && tiles.Length1 == 8 && r < 8
    modifies tiles
    ensures forall c :: 0 <= c < 8 ==> tiles[r, c] == old(tiles[r, c]).(piece := Piece(BackRank(c), colour, Position(0, 0)))
    ensures forall i, j :: 0 <= i < 8 && 0 <= j < 8 && i != r ==> tiles[i, j] == old(tiles[i, j])
  {
    tiles[r, 0] := tiles[r, 0].(piece := Piece(Rook, colour, Position(0, 0)));
    tiles[r, 7] := tiles[r, 7].(piece := Piece(Rook, colour, Position(0, 0)));
    tiles[r, 1] := tiles[r, 1].(piece := Piece(Bishop, colour, Position(0, 0)));
    tiles[r, 6] := tiles[r, 6].(piece := Piece(Bishop, colour, Position(0, 0)));
    tiles[r, 2] := tiles[r, 2].(piece := Piece(Knight, colour, Position(0, 0)));
    tiles[r, 5] := tiles[r, 5].(piece := Piece(Knight, colour, Position(0, 0)));
    tiles[r, 3] := tiles[r, 3].(piece := Piece(Queen, colour, Position(0, 0)));
    tiles[r, 4] := tiles[r, 4].(piece := Piece(King, colour, Position(0, 0)));
  }

  /**
   * Puts the pieces in their starting places and then stamps every tile with its
   * coordinates and every piece with its starting position.
   */
  method SetupBoard(tiles: array2<Tile>)
    requires tiles.Length0 == 8 && tiles.Length1 == 8
    modifies tiles
    ensures forall r, c :: 0 <= r < 8 && 0 <= c < 8 ==> tiles[r, c] == SetupTile(r, c, old(tiles[r, c]))
  {
    SetPawnRow(tiles, 1, Black);
    SetBackRank(tiles, 0, Black);
    SetPawnRow(tiles, 6, White);
    SetBackRank(tiles, 7, White);

    // Stamp coordinates: the inner counter `x` indexes the rows of the array.
    var x := 0;
    var y := 0;
    while y < 8
      invariant 0 <= y <= 8 && x == 0
      invariant forall i, j :: 0 <= i < 8 && 0 <= j < 8 ==>
        tiles[i, j].piece.kind == SetupTile(i, j, old(tiles[i, j])).piece.kind &&
        tiles[i, j].piece.colour == SetupTile(i, j, old(tiles[i, j])).piece.colour
      invariant forall i, j :: 0 <= i < 8 && 0 <= j < 8 && Stamped(i, j, x, y) ==>
        tiles[i, j] == SetupTile(i, j, old(tiles[i, j]))
    {
      while x < 8
        invariant 0 <= x <= 8
        invariant forall i, j :: 0 <= i < 8 && 0 <= j < 8 ==>
          tiles[i, j].piece.kind == SetupTile(i, j, old(tiles[i, j])).piece.kind &&
          tiles[i, j].piece.colour == SetupTile(i, j, old(tiles[i, j])).piece.colour
        invariant forall i, j :: 0 <= i < 8 && 0 <= j < 8 && Stamped(i, j, x, y) ==>
          tiles[i, j] == SetupTile(i, j, old(tiles[i, j]))
      {
        var piece := tiles[x, y].piece;
        tiles[x, y] := Tile(piece.(startingPosition := Position(x, y)), x, y);
        x := x + 1;
      }
      y := y + 1;
      x := 0;
    }
  }

  /** A tile of `after` is what setup makes of the same tile of `before`, on a board whose tiles were all `Empty`. */
  predicate SetUpFromEmpty(before: seq<seq<Tile>>, after: seq<seq<Tile>>)
  {
    |before| == 8 && |after| == 8 &&
    (forall r :: 0 <= r < 8 ==> |before[r]| == 8 && |after[r]| == 8) &&
    (forall r, c :: 0 <= r < 8 && 0 <= c < 8 ==>
      before[r][c].piece.kind == Empty && after[r][c] == SetupTile(r, c, before[r][c]))
  }

  /** The starting layout: Black on rows 0 and 1, White on rows 6 and 7, pawns in front, nothing between. */
  lemma SetupLayout(before: seq<seq<Tile>>, after: seq<seq<Tile>>, r: nat, c: nat)
    requires SetUpFromEmpty(before, after) && r < 8 && c < 8
    ensures r <= 1 ==> after[r][c].piece.colour == Black && after[r][c].piece.kind != Empty
    ensures r >= 6 ==> after[r][c].piece.colour == White && after[r][c].piece.kind != Empty
    ensures after[r][c].piece.kind == Pawn <==> r == 1 || r == 6
    ensures r == 0 || r == 7 ==> after[r][c].piece.kind == BackRank(c)
    ensures 2 <= r <= 5 ==> after[r][c].piece.kind == Empty
  {
  }

  /**
   * Every tile `[r, c]` is stamped (r, c), both on the tile and as its piece's starting
   * position, so no two tiles start with the same piece.
   */
  lemma SetupIdentities(before: seq<seq<Tile>>, after: seq<seq<Tile>>)
    requires SetUpFromEmpty(before, after)
    ensures forall r, c :: 0 <= r < 8 && 0 <= c < 8 ==>
      after[r][c].x == r && after[r][c].y == c && after[r][c].piece.startingPosition == Position(r, c)
    ensures forall r1, c1, r2, c2 :: 0 <= r1 < 8 && 0 <= c1 < 8 && 0 <= r2 < 8 && 0 <= c2 < 8 && (r1, c1) != (r2, c2) ==>
      !SamePiece(after[r1][c1].piece, after[r2][c2].piece)
  {
  }

  /** The contents of an 8 x 8 tile array as rows of tiles. */
  function Cells(tiles: array2<Tile>): (b: seq<seq<Tile>>)
    reads tiles
    requires tiles.Length0 == 8 && tiles.Length1 == 8
    ensures |b| == 8 && forall r :: 0 <= r < 8 ==> |b[r]| == 8
    ensures forall r, c :: 0 <= r < 8 && 0 <= c < 8 ==> b[r][c] == tiles[r, c]
  {
    seq(8, r requires 0 <= r < 8 reads tiles => seq(8, c requires 0 <= c < 8 reads tiles => tiles[r, c]))
  }

  /** Whether tile `t` holds a piece of `colour`. */
  predicate Holds(t: Tile, colour: Colour)
  {
    t.piece.kind != Empty && t.piece.colour == colour
  }

  /** The number of tiles of `row` holding a piece of `colour`. */
  function CountInRow(row: seq<Tile>, colour: Colour): nat
  {
    if row == [] then 0
    else CountInRow(row[..|row| - 1], colour) + (if Holds(row[|row| - 1], colour) then 1 else 0)
  }

  /** The number of tiles in the first `n` rows of `board` holding a piece of `colour`. */
  function CountInRows(board: seq<seq<Tile>>, n: nat, colour: Colour): nat
    requires n <= |board|
  {
    if n == 0 then 0 else CountInRows(board, n - 1, colour) + CountInRow(board[n - 1], colour)
  }

  /** A row whose every tile holds a piece of `colour` counts its full length, and a row with none counts 0. */
  lemma {:induction false} CountInUniformRow(row: seq<Tile>, colour: Colour)
    ensures (forall i :: 0 <= i < |row| ==> Holds(row[i], colour)) ==> CountInRow(row, colour) == |row|
    ensures (forall i :: 0 <= i < |row| ==> !Holds(row[i], colour)) ==> CountInRow(row, colour) == 0
  {
    if row != [] {
      CountInUniformRow(row[..|row| - 1], colour);
    }
  }

  /** Rows `lo` to `hi - 1` holding no piece of `colour` add nothing to the count. */
  lemma {:induction false} CountInEmptyRows(board: seq<seq<Tile>>, lo: nat, hi: nat, colour: Colour)
    requires lo <= hi <= |board|
    requires forall r :: lo <= r < hi ==> CountInRow(board[r], colour) == 0
    ensures CountInRows(board, hi, colour) == CountInRows(board, lo, colour)
  {
    if lo < hi {
      CountInEmptyRows(board, lo, hi - 1, colour);
    }
  }

  /** Setup from an all-`Empty` board leaves exactly 16 pieces of each colour. */
  lemma SetupCounts(before: seq<seq<Tile>>, after: seq<seq<Tile>>, colour: Colour)
    requires SetUpFromEmpty(before, after)
    ensures CountInRows(after, 8, colour) == 16
  {
    forall r | 0 <= r < 8
      ensures CountInRow(after[r], colour) == if (colour == Black && r <= 1) || (colour == White && r >= 6) then 8 else 0
    {
      forall c | 0 <= c < 8 {
        SetupLayout(before, after, r, c);
      }
      CountInUniformRow(after[r], colour);
    }
    if colour == Black {
      CountInEmptyRows(after, 2, 8, colour);
      assert CountInRows(after, 1, colour) == CountInRow(after[0], colour);
    } else {
      CountInEmptyRows(after, 0, 6, colour);
      assert CountInRows(after, 7, colour) == CountInRows(after, 6, colour) + CountInRow(after[6], colour);
    }
  }

  // ---------------------------------------------------------------- history

  /** No entry of the history is the given piece: the piece has not moved yet. */
  predicate NeverMoved(history: seq<Move>, piece: Piece)
  {
    !exists m :: m in history && SamePiece(m.piece, piece)
  }

  /** Appending a move marks exactly the moved piece as having moved. */
  lemma NeverMovedAfterAppend(history: seq<Move>, m: Move, piece: Piece)
    ensures NeverMoved(history + [m], piece) <==> NeverMoved(history, piece) && !SamePiece(m.piece, piece)
  {
  }

  // ---------------------------------------------------------------- pawn rule

  /**
   * When the source's `usize` arithmetic wraps below zero: a White pawn always computes
   * `start.y - 1`, and computes `start.y - 2` when the single step did not match and the
   * pawn has not moved yet.
   */
  predicate PawnUnderflows(piece: Piece, start: Position, end: Position, firstMove: bool)
  {
    piece.kind == Pawn && piece.colour == White &&
    (start.y == 0 || (start.y == 1 && firstMove && !(end.y == 0 && end.x == start.x)))
  }

  /**
   * A pawn's straight advance: one row forward in the same column, or two rows on its
   * first move. Forward is toward row 0 for White and toward row 7 for Black.
   */
  predicate PawnAdvance(piece: Piece, start: Position, end: Position, firstMove: bool)
  {
    var forward := if piece.colour == White then -1 else 1;
    piece.kind == Pawn && end.x == start.x &&
    (end.y == start.y + forward || (firstMove && end.y == start.y + 2 * forward))
  }

  // ---------------------------------------------------------------- game

  class Game {
    var tiles: array2<Tile>
    var currentTurn: Colour
    var history: seq<Move>

    ghost predicate Valid()
      reads this
    {
      tiles.Length0 == 8 && tiles.Length1 == 8
    }

    /** A game on a board of default tiles with an empty history. */
    constructor (turn: Colour)
      ensures Valid() && fresh(tiles)
      ensures forall r, c :: 0 <= r < 8 && 0 <= c < 8 ==> tiles[r, c] == DefaultTile
      ensures currentTurn == turn && history == []
    {
      tiles := new Tile[8, 8]((_, _) => DefaultTile);
      currentTurn := turn;
      history := [];
    }

    /** The piece on the square `p`. */
    function PieceAt(p: Position): Piece
      reads this, tiles
      requires Valid() && !OffBoard(p.x, p.y)
    {
      tiles[p.y, p.x].piece
    }

    /**
     * The legality verdict for moving the piece on `start` to `end`. Only pawns have a
     * rule; every other kind, `Empty` included, is refused. The board is not consulted
     * beyond the start square: no occupancy or turn check. `None` is the source's
     * `usize` underflow panic. The first-move test is `NeverMoved`, the value that
     * `PiecesFirstMove` computes by its scan of the history.
     */
    function ValidateMove(start: Position, end: Position): (r: Option<bool>)
      reads this, tiles
      requires Valid() && (OffBoard(end.x, end.y) || !OffBoard(start.x, start.y))
      ensures OffBoard(end.x, end.y) ==> r == Some(false)
      ensures r.None? <==>
        !OffBoard(end.x, end.y) &&
        PawnUnderflows(PieceAt(start), start, end, NeverMoved(history, PieceAt(start)))
      ensures r == Some(true) <==>
        !OffBoard(end.x, end.y) &&
        !PawnUnderflows(PieceAt(start), start, end, NeverMoved(history, PieceAt(start))) &&
        PawnAdvance(PieceAt(start), start, end, NeverMoved(history, PieceAt(start)))
    {
      if OffBoard(end.x, end.y) then Some(false)
      else
        var piece := tiles[start.y, start.x].piece;
        match piece.kind
        case Pawn => (
          match piece.colour
          case White =>
            if start.y < 1 then None
            else if start.y - 1 == end.y && start.x == end.x then Some(true)
            else if NeverMoved(history, piece) then
              if start.y < 2 then None
              else if start.y - 2 == end.y && start.x == end.x then Some(true)
              else Some(false)
            else Some(false)
          case Black =>
            if start.y + 1 == end.y && start.x == end.x then Some(true)
            else if NeverMoved(history, piece) && start.y + 2 == end.y && start.x == end.x then Some(true)
            else Some(false))
        case Knight => Some(false)
        case Bishop => Some(false)
        case Rook => Some(false)
        case Queen => Some(false)
        case King => Some(false)
        case Empty => Some(false)
    }

    /** Scans the history front to back for an entry that is `piece`. */
    method PiecesFirstMove(piece: Piece) returns (first: bool)
      ensures first == NeverMoved(history, piece)
    {
      for i := 0 to |history|
        invariant forall j :: 0 <= j < i ==> !SamePiece(history[j].piece, piece)
      {
        if SamePiece(history[i].piece, piece) {
          return false;
        }
      }
      return true;
    }

    /**
     * Moves the piece on `start` to `end` without any legality check: the end tile
     * receives the piece, the start tile's piece becomes `Empty` with its colour and
     * starting position kept, and the history grows by one entry.
     */
    method MovePiece(start: Position, end: Position)
      requires Valid() && !OffBoard(start.x, start.y) && !OffBoard(end.x, end.y)
      modifies this, tiles
      ensures Valid() && tiles == old(tiles) && currentTurn == old(currentTurn)
      ensures start != end ==> tiles[end.y, end.x] == old(tiles[end.y, end.x]).(piece := old(tiles[start.y, start.x].piece))
      ensures tiles[start.y, start.x] == old(tiles[start.y, start.x]).(piece := old(tiles[start.y, start.x].piece).(kind := Empty))
      ensures forall r, c :: 0 <= r < 8 && 0 <= c < 8 && (r, c) != (start.y, start.x) && (r, c) != (end.y, end.x) ==>
        tiles[r, c] == old(tiles[r, c])
      ensures history == old(history) + [Move(old(tiles[start.y, start.x].piece).(kind := Empty), NoCapture, |old(history)|, start, end)]
      ensures !NeverMoved(history, old(tiles[start.y, start.x].piece))
    {
      tiles[end.y, end.x] := tiles[end.y, end.x].(piece := tiles[start.y, start.x].piece);
      tiles[start.y, start.x] := tiles[start.y, start.x].(piece := tiles[start.y, start.x].piece.(kind := Empty));
      history := history + [Move(tiles[start.y, start.x].piece, NoCapture, |history|, start, end)];
    }
  }
}
