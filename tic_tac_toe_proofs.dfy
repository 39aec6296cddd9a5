/**
 * What the tic-tac-toe rules guarantee, proved about the value-level model
 * in module TicTacToe (which the `Game` class is proved to follow).
 */
module TicTacToeProofs {
  import opened AnchorTypes
  import opened TicTacToe

  // ---------------------------------------------------------------------
  // Turn order
  // ---------------------------------------------------------------------

  /** A move that leaves the game running hands the turn to the other player. */
  lemma AlternatesOnContinuingMove<K>(g: GameData<K>, tile: Tile)
    requires WellFormed(g)
    requires MoveResult(g, tile).1 == Ok && MoveResult(g, tile).0.state == Active
    ensures CurrentPlayerIndex(MoveResult(g, tile).0.turn) == 1 - CurrentPlayerIndex(g.turn)
    ensures CurrentPlayer(MoveResult(g, tile).0.players, MoveResult(g, tile).0.turn)
         == g.players[1 - CurrentPlayerIndex(g.turn)]
  {
    var h := MoveResult(g, tile).0;
    assert h.turn == g.turn + 1;
  }

  /**
   * The signer is compared with the current player before anything else:
   * a wrong signer gets `NotPlayersTurn` even on a finished game, and the
   * game is left as it was.
   */
  lemma WrongSignerRejectedFirst<K>(g: GameData<K>, player: K, tile: Tile)
    requires WellFormed(g) && player != CurrentPlayer(g.players, g.turn)
    ensures InstructionResult(g, player, tile) == (g, Err(NotPlayersTurn))
  {
  }

  /** The right signer reaches `Game::play` unchanged. */
  lemma RightSignerReachesMove<K>(g: GameData<K>, tile: Tile)
    requires WellFormed(g)
    ensures InstructionResult(g, CurrentPlayer(g.players, g.turn), tile) == MoveResult(g, tile)
  {
  }

  // ---------------------------------------------------------------------
  // Rejected moves
  // ---------------------------------------------------------------------

  /** A finished game accepts no move: every call fails with `GameAlreadyOver` and changes nothing. */
  lemma FinishedGameRejectsMoves<K>(g: GameData<K>, tile: Tile)
    requires WellFormed(g) && !g.state.Active?
    ensures MoveResult(g, tile) == (g, Err(GameAlreadyOver))
  {
  }

  /** A row or column above 2 is `TileOutOfBounds` on a running game. */
  lemma OutOfBoundsRejected<K>(g: GameData<K>, tile: Tile)
    requires WellFormed(g) && g.state.Active? && (tile.row > 2 || tile.column > 2)
    ensures MoveResult(g, tile) == (g, Err(TileOutOfBounds))
  {
  }

  /** A marked cell is `TileAlreadySet` on a running game. */
  lemma OccupiedTileRejected<K>(g: GameData<K>, tile: Tile)
    requires WellFormed(g) && g.state.Active? && tile.row <= 2 && tile.column <= 2
    requires g.board[tile.row][tile.column].Some?
    ensures MoveResult(g, tile) == (g, Err(TileAlreadySet))
  {
  }

  /**
   * A move succeeds exactly when the game is running and the tile is an
   * empty cell of the board; every failing move leaves the game unchanged.
   */
  lemma MoveSucceedsExactlyWhen<K>(g: GameData<K>, tile: Tile)
    requires WellFormed(g)
    ensures MoveResult(g, tile).1 == Ok <==>
      g.state.Active? && tile.row <= 2 && tile.column <= 2 && g.board[tile.row][tile.column].None?
    ensures MoveResult(g, tile).1 != Ok ==> MoveResult(g, tile).0 == g
  {
  }

  // ---------------------------------------------------------------------
  // The board after a move
  // ---------------------------------------------------------------------

  /**
   * A successful move turns exactly the chosen empty cell into the mover's
   * mark (X for the first player, O for the second) and no other cell.
   */
  lemma MoveMarksOnlyTarget<K>(g: GameData<K>, tile: Tile)
    requires WellFormed(g) && MoveResult(g, tile).1 == Ok
    ensures tile.row <= 2 && tile.column <= 2
    ensures g.board[tile.row][tile.column] == None
    ensures MoveResult(g, tile).0.board[tile.row][tile.column]
         == Some(if CurrentPlayerIndex(g.turn) == 0 then X else O)
    ensures forall r, c :: 0 <= r < 3 && 0 <= c < 3 && (r, c) != (tile.row as int, tile.column as int) ==>
              MoveResult(g, tile).0.board[r][c] == g.board[r][c]
  {
  }

  /** No instruction clears or overwrites a marked cell. */
  lemma MarksArePermanent<K>(g: GameData<K>, player: K, tile: Tile)
    requires WellFormed(g)
    ensures forall r, c :: 0 <= r < 3 && 0 <= c < 3 && g.board[r][c].Some? ==>
              InstructionResult(g, player, tile).0.board[r][c] == g.board[r][c]
  {
  }

  // ---------------------------------------------------------------------
  // The turn counter
  // ---------------------------------------------------------------------

  /**
   * After a successful move the turn goes up by one exactly when the game is
   * still running; a failed instruction leaves the turn alone.
   */
  lemma TurnAdvancesIffStillActive<K>(g: GameData<K>, player: K, tile: Tile)
    requires WellFormed(g)
    ensures InstructionResult(g, player, tile).1 == Ok ==>
      (InstructionResult(g, player, tile).0.turn == g.turn + 1 <==> InstructionResult(g, player, tile).0.state == Active) &&
      (InstructionResult(g, player, tile).0.state != Active ==> InstructionResult(g, player, tile).0.turn == g.turn)
    ensures InstructionResult(g, player, tile).1 != Ok ==> InstructionResult(g, player, tile).0.turn == g.turn
  {
  }

  /** The winner recorded by a move is the player who made it. */
  lemma WinnerIsMover<K>(g: GameData<K>, tile: Tile)
    requires WellFormed(g) && MoveResult(g, tile).1 == Ok && MoveResult(g, tile).0.state.Won?
    ensures MoveResult(g, tile).0.state.winner == CurrentPlayer(g.players, g.turn)
  {
  }

  // ---------------------------------------------------------------------
  // Win and tie detection, as the program does it
  // ---------------------------------------------------------------------

  /** Row 0, column 0 and the leading diagonal win for the mover on any board. */
  lemma FirstLinesWin<K>(b: Board, mover: K, s: GameState<K>)
    requires WellFormedBoard(b)
    requires IsWinningTrio(b, Row(0)) || IsWinningTrio(b, Column(0)) || IsWinningTrio(b, LeadingDiagonal)
    ensures UpdatedState(b, mover, s) == Won(mover)
  {
  }

  /**
   * On a board with an empty cell only row 0, column 0 and the leading
   * diagonal are looked at; otherwise the state is left as it was.
   */
  lemma OpenBoardSeesOnlyFirstLines<K>(b: Board, mover: K, s: GameState<K>)
    requires WellFormedBoard(b) && !Full(b)
    ensures UpdatedState(b, mover, s) ==
      if IsWinningTrio(b, Row(0)) || IsWinningTrio(b, Column(0)) || IsWinningTrio(b, LeadingDiagonal)
      then Won(mover) else s
  {
  }

  /**
   * A full board always ends the game: it is won by the mover exactly when a
   * row, a column or the leading diagonal is uniformly marked (a later row or
   * column overwrites the `Tie` recorded for an earlier index), and a tie
   * otherwise.
   */
  lemma {:induction false} FullBoardIsDecided<K>(b: Board, mover: K, s: GameState<K>)
    requires WellFormedBoard(b) && Full(b)
    ensures UpdatedState(b, mover, s) == Won(mover) <==>
      IsWinningTrio(b, Row(0)) || IsWinningTrio(b, Row(1)) || IsWinningTrio(b, Row(2)) ||
      IsWinningTrio(b, Column(0)) || IsWinningTrio(b, Column(1)) || IsWinningTrio(b, Column(2)) ||
      IsWinningTrio(b, LeadingDiagonal)
    ensures UpdatedState(b, mover, s) == Won(mover) || UpdatedState(b, mover, s) == Tie
  {
    assert ScanFrom(b, 3, mover, Tie) == Tie;
    assert ScanFrom(b, 2, mover, Tie) ==
      if IsWinningTrio(b, Row(2)) || IsWinningTrio(b, Column(2)) || IsWinningTrio(b, LeadingDiagonal)
      then Won(mover) else Tie;
    assert ScanFrom(b, 1, mover, Tie) ==
      if IsWinningTrio(b, Row(1)) || IsWinningTrio(b, Column(1)) || IsWinningTrio(b, LeadingDiagonal)
      then Won(mover) else ScanFrom(b, 2, mover, Tie);
  }

  /** Starting from a running game, `Tie` is only ever recorded on a full board. */
  lemma TieOnlyOnFullBoard<K>(b: Board, mover: K)
    requires WellFormedBoard(b) && UpdatedState(b, mover, Active) == Tie
    ensures Full(b)
  {
  }

  /** The program never reports a win that the game's rules would not. */
  lemma {:induction false} ReportedWinIsReal<K>(b: Board, mover: K)
    requires WellFormedBoard(b) && UpdatedState(b, mover, Active).Won?
    ensures HasWinningLine(b) && IntendedState(b, mover, Active) == Won(mover)
  {
    if !Full(b) {
      OpenBoardSeesOnlyFirstLines(b, mover, Active);
    } else {
      FullBoardIsDecided(b, mover, Active);
    }
  }

  /** On a full board the program and the rules of the game differ only by the anti-diagonal. */
  lemma {:induction false} FullBoardAgreesButForAntiDiagonal<K>(b: Board, mover: K, s: GameState<K>)
    requires WellFormedBoard(b) && Full(b) && !IsWinningTrio(b, AntiDiagonal)
    ensures UpdatedState(b, mover, s) == IntendedState(b, mover, s)
  {
    FullBoardIsDecided(b, mover, s);
  }

  /** X X X in row 1 of an open board: the game should be won, the program keeps it running. */
  lemma RowOneWinMissedOnOpenBoard<K>(mover: K)
    ensures var b: Board := [[None, None, None], [Some(X), Some(X), Some(X)], [Some(O), Some(O), None]];
      WellFormedBoard(b) && UpdatedState(b, mover, Active) == Active && IntendedState(b, mover, Active) == Won(mover)
  {
    var b: Board := [[None, None, None], [Some(X), Some(X), Some(X)], [Some(O), Some(O), None]];
    assert b[0][0].None?;
    assert IsWinningTrio(b, Row(1));
  }

  /** X on the anti-diagonal of a full board with no other line: the rules say won, the program says tie. */
  lemma AntiDiagonalMissedOnFullBoard<K>(mover: K)
    ensures var b: Board := [[Some(O), Some(O), Some(X)], [Some(X), Some(X), Some(O)], [Some(X), Some(O), Some(X)]];
      WellFormedBoard(b) && UpdatedState(b, mover, Active) == Tie && IntendedState(b, mover, Active) == Won(mover)
  {
    var b: Board := [[Some(O), Some(O), Some(X)], [Some(X), Some(X), Some(O)], [Some(X), Some(O), Some(X)]];
    assert Full(b);
    assert IsWinningTrio(b, AntiDiagonal);
    FullBoardIsDecided(b, mover, Active);
  }

  // ---------------------------------------------------------------------
  // Counting marks: what every reachable game satisfies
  // ---------------------------------------------------------------------

  /** The nine cells in row-major order. */
  ghost function Flatten(b: Board): (s: seq<Cell>)
    requires WellFormedBoard(b)
    ensures |s| == 9
    ensures forall r, c :: 0 <= r < 3 && 0 <= c < 3 ==> s[3 * r + c] == b[r][c]
  {
    b[0] + b[1] + b[2]
  }

  /** How many entries of `s` equal `w`. */
  ghost function Count(s: seq<Cell>, w: Cell): nat {
    if s == [] then 0 else (if s[0] == w then 1 else 0) + Count(s[1..], w)
  }

  lemma {:induction false} CountUpdate(s: seq<Cell>, k: nat, v: Cell, w: Cell)
    requires k < |s|
    ensures Count(s[k := v], w) == Count(s, w) - (if s[k] == w then 1 else 0) + (if v == w then 1 else 0)
  {
    if k == 0 {
      assert s[k := v][1..] == s[1..];
    } else {
      assert s[k := v][1..] == s[1..][k - 1 := v];
      CountUpdate(s[1..], k - 1, v, w);
    }
  }

  lemma {:induction false} CountPartition(s: seq<Cell>)
    ensures Count(s, None) + Count(s, Some(X)) + Count(s, Some(O)) == |s|
  {
    if s != [] {
      CountPartition(s[1..]);
      assert s[0] == None || s[0].value == X || s[0].value == O;
    }
  }

  lemma {:induction false} CountPositive(s: seq<Cell>, i: nat, w: Cell)
    requires i < |s| && s[i] == w
    ensures Count(s, w) >= 1
  {
    if i > 0 {
      CountPositive(s[1..], i - 1, w);
    }
  }

  lemma {:induction false} CountAbsent(s: seq<Cell>, w: Cell)
    requires forall i :: 0 <= i < |s| ==> s[i] != w
    ensures Count(s, w) == 0
  {
    if s != [] {
      CountAbsent(s[1..], w);
    }
  }

  lemma FlattenUpdate(b: Board, r: int, c: int, v: Cell)
    requires WellFormedBoard(b) && 0 <= r < 3 && 0 <= c < 3
    ensures WellFormedBoard(b[r := b[r][c := v]])
    ensures Flatten(b[r := b[r][c := v]]) == Flatten(b)[3 * r + c := v]
  {
    var b' := b[r := b[r][c := v]];
    var s, s' := Flatten(b), Flatten(b');
    forall i | 0 <= i < 9
      ensures s'[i] == s[3 * r + c := v][i]
    {
      var ri, ci := i / 3, i % 3;
      assert i == 3 * ri + ci;
    }
  }

  /** Marks placed so far: one per turn played, counting the last move of a finished game. */
  ghost function MarksPlayed<K>(g: GameData<K>): int {
    if g.state.Active? then g.turn - 1 else g.turn
  }

  /**
   * What holds of every game the two instructions can produce: X and O
   * alternate from X, so the number of each mark follows from the turn; a
   * running game has an empty cell; a winner is one of the players.
   */
  ghost predicate Consistent<K>(g: GameData<K>) {
    WellFormed(g) &&
    (g.state.Won? ==> g.state.winner in g.players) &&
    Count(Flatten(g.board), Some(X)) == (MarksPlayed(g) + 1) / 2 &&
    Count(Flatten(g.board), Some(O)) == MarksPlayed(g) / 2 &&
    (g.state.Active? ==> !Full(g.board))
  }

  lemma SetupIsConsistent<K>(playerOne: K, playerTwo: K)
    ensures Consistent(NewGame(playerOne, playerTwo))
  {
    var g := NewGame(playerOne, playerTwo);
    var s := Flatten(g.board);
    assert forall i :: 0 <= i < 9 ==> s[i] == None by {
      forall i | 0 <= i < 9 ensures s[i] == None {
        assert s[3 * (i / 3) + i % 3] == g.board[i / 3][i % 3];
      }
    }
    CountAbsent(s, Some(X));
    CountAbsent(s, Some(O));
    assert !Full(g.board) by { assert g.board[0][0] == None; }
  }

  /** A successful move adds one mark of the mover's sign to the board and no other. */
  lemma MoveAddsOneMark<K>(g: GameData<K>, tile: Tile)
    requires WellFormed(g) && MoveResult(g, tile).1 == Ok
    ensures var before, after := Flatten(g.board), Flatten(MoveResult(g, tile).0.board);
      Count(after, Some(X)) == Count(before, Some(X)) + (if CurrentPlayerIndex(g.turn) == 0 then 1 else 0) &&
      Count(after, Some(O)) == Count(before, Some(O)) + (if CurrentPlayerIndex(g.turn) == 1 then 1 else 0)
  {
    var row, column := tile.row as int, tile.column as int;
    var mark := Some(SignOf(CurrentPlayerIndex(g.turn)));
    FlattenUpdate(g.board, row, column, mark);
    CountUpdate(Flatten(g.board), 3 * row + column, mark, Some(X));
    CountUpdate(Flatten(g.board), 3 * row + column, mark, Some(O));
  }

  lemma {:induction false} MovePreservesConsistent<K>(g: GameData<K>, tile: Tile)
    requires Consistent(g)
    ensures Consistent(MoveResult(g, tile).0)
  {
    var h := MoveResult(g, tile).0;
    if MoveResult(g, tile).1 == Ok {
      MoveAddsOneMark(g, tile);
      assert MarksPlayed(h) == MarksPlayed(g) + 1;
      if Full(h.board) {
        FullBoardIsDecided(h.board, CurrentPlayer(g.players, g.turn), g.state);
      }
    }
  }

  lemma InstructionPreservesConsistent<K>(g: GameData<K>, player: K, tile: Tile)
    requires Consistent(g)
    ensures Consistent(InstructionResult(g, player, tile).0)
  {
    MovePreservesConsistent(g, tile);
  }

  /**
   * A consistent game is at most at turn 9, so the program's `u8` turn
   * counter never overflows.
   */
  lemma ConsistentTurnBound<K>(g: GameData<K>)
    requires Consistent(g)
    ensures g.turn <= 9
    ensures g.state.Active? ==> g.turn + 1 <= 10
  {
    var s := Flatten(g.board);
    CountPartition(s);
    if g.state.Active? {
      var r, c :| 0 <= r < 3 && 0 <= c < 3 && g.board[r][c].None?;
      CountPositive(s, 3 * r + c, None);
    }
  }

  // ---------------------------------------------------------------------
  // Sequences of instructions
  // ---------------------------------------------------------------------

  /** One `play` instruction: the signer and the tile. */
  datatype Move<K> = Move(player: K, tile: Tile)

  /** The game after the instructions `moves`, in order; a rejected one leaves the game as it was. */
  ghost function Replay<K>(g: GameData<K>, moves: seq<Move<K>>): (h: GameData<K>)
    requires WellFormed(g)
    ensures WellFormed(h) && h.players == g.players
    decreases |moves|
  {
    if moves == [] then g
    else Replay(InstructionResult(g, moves[0].player, moves[0].tile).0, moves[1..])
  }

  /** Once over, a game stays exactly as it is whatever is played. */
  lemma {:induction false} FinishedGameIsFinal<K>(g: GameData<K>, moves: seq<Move<K>>)
    requires WellFormed(g) && !g.state.Active?
    ensures Replay(g, moves) == g
    decreases |moves|
  {
    if moves != [] {
      FinishedGameIsFinal(g, moves[1..]);
    }
  }

  lemma {:induction false} ReplayPreservesConsistent<K>(g: GameData<K>, moves: seq<Move<K>>)
    requires Consistent(g)
    ensures Consistent(Replay(g, moves))
    decreases |moves|
  {
    if moves != [] {
      InstructionPreservesConsistent(g, moves[0].player, moves[0].tile);
      ReplayPreservesConsistent(InstructionResult(g, moves[0].player, moves[0].tile).0, moves[1..]);
    }
  }

  /** A mark, once on the board, survives any later instructions. */
  lemma {:induction false} ReplayKeepsMarks<K>(g: GameData<K>, moves: seq<Move<K>>, r: int, c: int)
    requires WellFormed(g) && 0 <= r < 3 && 0 <= c < 3 && g.board[r][c].Some?
    ensures Replay(g, moves).board[r][c] == g.board[r][c]
    decreases |moves|
  {
    if moves != [] {
      MarksArePermanent(g, moves[0].player, moves[0].tile);
      ReplayKeepsMarks(InstructionResult(g, moves[0].player, moves[0].tile).0, moves[1..], r, c);
    }
  }

  /**
   * Every game reachable from `setup_game` is consistent: its turn never
   * exceeds 9 and a recorded winner is one of the two players.
   */
  lemma ReachableGame<K>(playerOne: K, playerTwo: K, moves: seq<Move<K>>)
    ensures Replay(NewGame(playerOne, playerTwo), moves).turn <= 9
    ensures Replay(NewGame(playerOne, playerTwo), moves).state.Won? ==>
              Replay(NewGame(playerOne, playerTwo), moves).state.winner in {playerOne, playerTwo}
  {
    SetupIsConsistent(playerOne, playerTwo);
    ReplayPreservesConsistent(NewGame(playerOne, playerTwo), moves);
    ConsistentTurnBound(Replay(NewGame(playerOne, playerTwo), moves));
  }

  // ---------------------------------------------------------------------
  // Worked games
  // ---------------------------------------------------------------------

  /** The second player cannot open the game. */
  lemma SecondPlayerCannotOpen<K>(a: K, b: K)
    requires a != b
    ensures InstructionResult(NewGame(a, b), b, Tile(0, 0)) == (NewGame(a, b), Err(NotPlayersTurn))
  {
  }

  /** Row 3 does not exist. */
  lemma RowThreeIsOutOfBounds<K>(a: K, b: K)
    ensures InstructionResult(NewGame(a, b), a, Tile(3, 0)) == (NewGame(a, b), Err(TileOutOfBounds))
  {
  }

  /** Replaying a list of instructions plays the first and replays the rest. */
  lemma ReplayCons<K>(g: GameData<K>, m: Move<K>, rest: seq<Move<K>>)
    requires WellFormed(g)
    ensures Replay(g, [m] + rest) == Replay(InstructionResult(g, m.player, m.tile).0, rest)
  {
    assert ([m] + rest)[1..] == rest;
  }

  /** Replaying two lists of instructions one after the other. */
  lemma {:induction false} ReplayAppend<K>(g: GameData<K>, first: seq<Move<K>>, second: seq<Move<K>>)
    requires WellFormed(g)
    ensures Replay(g, first + second) == Replay(Replay(g, first), second)
    decreases |first|
  {
    if first == [] {
      assert first + second == second;
    } else {
      assert (first + second)[1..] == first[1..] + second;
      ReplayAppend(InstructionResult(g, first[0].player, first[0].tile).0, first[1..], second);
    }
  }

  /** The board once the current player's mark is written at `tile`. */
  ghost function Marked<K>(g: GameData<K>, tile: Tile): Board
    requires WellFormed(g) && tile.row <= 2 && tile.column <= 2
  {
    var row, column := tile.row as int, tile.column as int;
    g.board[row := g.board[row][column := Some(SignOf(CurrentPlayerIndex(g.turn)))]]
  }

  /**
   * The current player marks a free cell, completes none of the lines the
   * program looks at on an open board, and leaves a cell empty: the game goes
   * on with the turn advanced.
   */
  lemma ReplayQuietMove<K>(g: GameData<K>, m: Move<K>, rest: seq<Move<K>>)
    requires WellFormed(g) && g.state.Active? && m.player == CurrentPlayer(g.players, g.turn)
    requires m.tile.row <= 2 && m.tile.column <= 2 && g.board[m.tile.row][m.tile.column].None?
    requires WellFormedBoard(Marked(g, m.tile)) && !Full(Marked(g, m.tile))
    requires !IsWinningTrio(Marked(g, m.tile), Row(0)) && !IsWinningTrio(Marked(g, m.tile), Column(0))
    requires !IsWinningTrio(Marked(g, m.tile), LeadingDiagonal)
    ensures Replay(g, [m] + rest) == Replay(GameData(g.players, g.turn + 1, Marked(g, m.tile), Active), rest)
  {
    ReplayCons(g, m, rest);
    OpenBoardSeesOnlyFirstLines(Marked(g, m.tile), CurrentPlayer(g.players, g.turn), g.state);
  }

  /** The current player marks a free cell and completes row 0, column 0 or the leading diagonal: they win. */
  lemma ReplayWinningMove<K>(g: GameData<K>, m: Move<K>)
    requires WellFormed(g) && g.state.Active? && m.player == CurrentPlayer(g.players, g.turn)
    requires m.tile.row <= 2 && m.tile.column <= 2 && g.board[m.tile.row][m.tile.column].None?
    requires WellFormedBoard(Marked(g, m.tile))
    requires IsWinningTrio(Marked(g, m.tile), Row(0)) || IsWinningTrio(Marked(g, m.tile), Column(0)) ||
             IsWinningTrio(Marked(g, m.tile), LeadingDiagonal)
    ensures Replay(g, [m]).state == Won(m.player)
  {
    ReplayCons(g, m, []);
    assert [m] == [m] + [];
    FirstLinesWin(Marked(g, m.tile), CurrentPlayer(g.players, g.turn), g.state);
  }

  /** The first player completes row 0 on the fifth move and wins. */
  lemma RowZeroGame<K>(a: K, b: K)
    requires a != b
    ensures Replay(NewGame(a, b), [Move(a, Tile(0, 0)), Move(b, Tile(1, 1)), Move(a, Tile(0, 1)),
                                   Move(b, Tile(2, 2)), Move(a, Tile(0, 2))]).state == Won(a)
  {
    var m1, m2, m3, m4, m5 := Move(a, Tile(0, 0)), Move(b, Tile(1, 1)), Move(a, Tile(0, 1)),
                              Move(b, Tile(2, 2)), Move(a, Tile(0, 2));
    var g0 := NewGame(a, b);
    var g1 := GameData([a, b], 2, Marked(g0, m1.tile), Active);
    var g2 := GameData([a, b], 3, Marked(g1, m2.tile), Active);
    var g3 := GameData([a, b], 4, Marked(g2, m3.tile), Active);
    var g4 := GameData([a, b], 5, Marked(g3, m4.tile), Active);
    assert g1.board[2][2].None?;
    ReplayQuietMove(g0, m1, [m2, m3, m4, m5]);
    assert g2.board[2][2].None?;
    ReplayQuietMove(g1, m2, [m3, m4, m5]);
    assert g3.board[2][2].None?;
    ReplayQuietMove(g2, m3, [m4, m5]);
    assert g4.board[1][0].None?;
    ReplayQuietMove(g3, m4, [m5]);
    ReplayWinningMove(g4, m5);
    assert [m1, m2, m3, m4, m5] == [m1] + ([m2] + ([m3] + ([m4] + [m5])));
  }

  /**
   * X: (0,0), (0,2), (1,1), (2,0), (2,2) against O: (0,1), (1,0), (1,2),
   * (2,1). The seventh move completes the anti-diagonal, which the program
   * does not see, so the game goes on; the ninth completes the leading
   * diagonal and X wins. By the rules of the game X had won at move seven.
   */
  lemma DiagonalGame<K>(a: K, b: K)
    requires a != b
    ensures var seven := Replay(NewGame(a, b), [Move(a, Tile(0, 0)), Move(b, Tile(0, 1)), Move(a, Tile(0, 2)),
                                                Move(b, Tile(1, 0)), Move(a, Tile(1, 1)), Move(b, Tile(1, 2)),
                                                Move(a, Tile(2, 0))]);
            seven.state == Active && seven.turn == 8 && IntendedState(seven.board, a, Active) == Won(a)
    ensures Replay(NewGame(a, b), [Move(a, Tile(0, 0)), Move(b, Tile(0, 1)), Move(a, Tile(0, 2)),
                                   Move(b, Tile(1, 0)), Move(a, Tile(1, 1)), Move(b, Tile(1, 2)),
                                   Move(a, Tile(2, 0)), Move(b, Tile(2, 1)), Move(a, Tile(2, 2))]).state == Won(a)
  {
    var first := [Move(a, Tile(0, 0)), Move(b, Tile(0, 1)), Move(a, Tile(0, 2)), Move(b, Tile(1, 0))];
    var next := [Move(a, Tile(1, 1)), Move(b, Tile(1, 2)), Move(a, Tile(2, 0))];
    var m8, m9 := Move(b, Tile(2, 1)), Move(a, Tile(2, 2));
    var g4 := DiagonalFirstFour(a, b);
    var g7 := DiagonalNextThree(a, b, g4);
    ReplayAppend(NewGame(a, b), first, next);
    assert first + next == [Move(a, Tile(0, 0)), Move(b, Tile(0, 1)), Move(a, Tile(0, 2)),
                            Move(b, Tile(1, 0)), Move(a, Tile(1, 1)), Move(b, Tile(1, 2)),
                            Move(a, Tile(2, 0))];
    assert IsWinningTrio(g7.board, AntiDiagonal);
    var g8 := GameData([a, b], 9, Marked(g7, m8.tile), Active);
    assert g8.board[2][2].None?;
    ReplayQuietMove(g7, m8, [m9]);
    ReplayWinningMove(g8, m9);
    ReplayAppend(NewGame(a, b), first + next, [m8, m9]);
    assert first + next + [m8, m9] == [Move(a, Tile(0, 0)), Move(b, Tile(0, 1)), Move(a, Tile(0, 2)),
                                       Move(b, Tile(1, 0)), Move(a, Tile(1, 1)), Move(b, Tile(1, 2)),
                                       Move(a, Tile(2, 0)), Move(b, Tile(2, 1)), Move(a, Tile(2, 2))];
  }

  /** The first four instructions of `DiagonalGame`. */
  lemma DiagonalFirstFour<K>(a: K, b: K) returns (g4: GameData<K>)
    requires a != b
    ensures g4 == Replay(NewGame(a, b), [Move(a, Tile(0, 0)), Move(b, Tile(0, 1)), Move(a, Tile(0, 2)), Move(b, Tile(1, 0))])
    ensures g4 == GameData([a, b], 5, [[Some(X), Some(O), Some(X)], [Some(O), None, None], [None, None, None]], Active)
  {
    var m1, m2, m3, m4 := Move(a, Tile(0, 0)), Move(b, Tile(0, 1)), Move(a, Tile(0, 2)), Move(b, Tile(1, 0));
    var g0 := NewGame(a, b);
    var g1 := GameData([a, b], 2, Marked(g0, m1.tile), Active);
    var g2 := GameData([a, b], 3, Marked(g1, m2.tile), Active);
    var g3 := GameData([a, b], 4, Marked(g2, m3.tile), Active);
    g4 := GameData([a, b], 5, Marked(g3, m4.tile), Active);
    assert g1.board[2][2].None?;
    ReplayQuietMove(g0, m1, [m2, m3, m4]);
    assert g2.board[2][2].None?;
    ReplayQuietMove(g1, m2, [m3, m4]);
    assert g3.board[2][2].None?;
    ReplayQuietMove(g2, m3, [m4]);
    assert g4.board[2][2].None?;
    ReplayQuietMove(g3, m4, []);
    assert [m1, m2, m3, m4] == [m1] + ([m2] + ([m3] + ([m4] + [])));
    SameCells(g4.board, [[Some(X), Some(O), Some(X)], [Some(O), None, None], [None, None, None]]);
  }

  /** Instructions five to seven of `DiagonalGame`: X's marks on the anti-diagonal go unnoticed. */
  lemma DiagonalNextThree<K>(a: K, b: K, g4: GameData<K>) returns (g7: GameData<K>)
    requires a != b
    requires g4 == GameData([a, b], 5, [[Some(X), Some(O), Some(X)], [Some(O), None, None], [None, None, None]], Active)
    ensures g7 == Replay(g4, [Move(a, Tile(1, 1)), Move(b, Tile(1, 2)), Move(a, Tile(2, 0))])
    ensures g7 == GameData([a, b], 8, [[Some(X), Some(O), Some(X)], [Some(O), Some(X), Some(O)], [Some(X), None, None]], Active)
  {
    var m5, m6, m7 := Move(a, Tile(1, 1)), Move(b, Tile(1, 2)), Move(a, Tile(2, 0));
    var g5 := GameData([a, b], 6, Marked(g4, m5.tile), Active);
    var g6 := GameData([a, b], 7, Marked(g5, m6.tile), Active);
    g7 := GameData([a, b], 8, Marked(g6, m7.tile), Active);
    assert g5.board[2][2].None?;
    ReplayQuietMove(g4, m5, [m6, m7]);
    assert g6.board[2][2].None?;
    ReplayQuietMove(g5, m6, [m7]);
    assert g7.board[2][2].None?;
    ReplayQuietMove(g6, m7, []);
    assert [m5, m6, m7] == [m5] + ([m6] + ([m7] + []));
    SameCells(g7.board, [[Some(X), Some(O), Some(X)], [Some(O), Some(X), Some(O)], [Some(X), None, None]]);
  }
}
