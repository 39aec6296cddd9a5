/**
 * The tic-tac-toe program: the `Game` account, the rules it follows and the
 * two instructions `setup_game` and `play`.
 *
 * The rules are stated twice on purpose. The value level (`GameData`,
 * `MoveResult`, `InstructionResult`, `UpdatedState`) says what one
 * instruction does to a snapshot of the game; the class `Game` keeps the
 * board in a fixed 3x3 array and updates it in place, and every method of it
 * is proved to move the snapshot exactly as the value level says.
 *
 * Win detection is modelled as the program does it, not as the game's rules
 * say it should be done: see `ScanFrom`, and `IntendedState` for the rule
 * that checks all eight lines.
 */
module TicTacToe {
  import opened AnchorTypes

  datatype Sign = X | O

  datatype Option<+T> = None | Some(value: T)

  /** A game is running, drawn, or won by the player whose key it holds. */
  datatype GameState<+K> = Active | Tie | Won(winner: K)

  /** A move: the cell to mark. The coordinates are unchecked bytes. */
  datatype Tile = Tile(row: u8, column: u8)

  datatype TicTacToeError = TileOutOfBounds | TileAlreadySet | GameAlreadyOver | NotPlayersTurn

  type Cell = Option<Sign>

  /** Row-major view of the 3x3 board. */
  type Board = seq<seq<Cell>>

  /** A cell coordinate (row, column) and a line of three of them. */
  type Pos = (int, int)
  type Trio = (Pos, Pos, Pos)

  ghost predicate WellFormedBoard(b: Board) {
    |b| == 3 && forall r :: 0 <= r < 3 ==> |b[r]| == 3
  }

  predicate OnBoard(p: Pos) {
    0 <= p.0 < 3 && 0 <= p.1 < 3
  }

  predicate TrioOnBoard(t: Trio) {
    OnBoard(t.0) && OnBoard(t.1) && OnBoard(t.2)
  }

  function At(b: Board, p: Pos): Cell
    requires WellFormedBoard(b) && OnBoard(p)
  {
    b[p.0][p.1]
  }

  function Row(i: int): Trio { ((i, 0), (i, 1), (i, 2)) }

  function Column(i: int): Trio { ((0, i), (1, i), (2, i)) }

  /** (0,0), (1,1), (2,2): the only diagonal the program examines. */
  const LeadingDiagonal: Trio := ((0, 0), (1, 1), (2, 2))

  /** (0,2), (1,1), (2,0): a line of the game that the program never examines. */
  const AntiDiagonal: Trio := ((0, 2), (1, 1), (2, 0))

  const EmptyBoard: Board := [[None, None, None], [None, None, None], [None, None, None]]

  /** Every cell of `trio` holds the mark `s`. */
  ghost predicate MarkedBy(b: Board, trio: Trio, s: Sign)
    requires WellFormedBoard(b) && TrioOnBoard(trio)
  {
    At(b, trio.0) == Some(s) && At(b, trio.1) == Some(s) && At(b, trio.2) == Some(s)
  }

  /** No cell is empty. */
  ghost predicate Full(b: Board)
    requires WellFormedBoard(b)
  {
    forall r, c :: 0 <= r < 3 && 0 <= c < 3 ==> b[r][c].Some?
  }

  /** `is_winning_trio`: the three cells carry one and the same mark. */
  function IsWinningTrio(b: Board, trio: Trio): (r: bool)
    requires WellFormedBoard(b) && TrioOnBoard(trio)
    ensures r <==> MarkedBy(b, trio, X) || MarkedBy(b, trio, O)
  {
    var (first, second, third) := trio;
    assert At(b, first).Some? ==> At(b, first).value == X || At(b, first).value == O;
    At(b, first).Some? && At(b, first) == At(b, second) && At(b, second) == At(b, third)
  }

  /** `current_player_index`: 0 on odd turns, 1 on even turns. */
  function CurrentPlayerIndex(turn: nat): (i: nat)
    requires turn >= 1
    ensures i < 2
    ensures i == 0 <==> turn % 2 == 1
  {
    (turn - 1) % 2
  }

  /** `current_player`: the key whose move it is. */
  function CurrentPlayer<K>(players: seq<K>, turn: nat): (p: K)
    requires |players| == 2 && turn >= 1
    ensures p in players
    ensures turn % 2 == 1 ==> p == players[0]
    ensures turn % 2 == 0 ==> p == players[1]
  {
    players[CurrentPlayerIndex(turn)]
  }

  /** `Sign::from_usize(index).unwrap()`: the mark of player `index`. */
  function SignOf(index: nat): Sign
    requires index < 2
  {
    if index == 0 then X else O
  }

  /**
   * The state that `update_state` leaves when its `for i in 0..=2` loop is
   * entered at index `i` with state `s`, `mover` being the current player.
   * Each round looks at row `i`, column `i` and the leading diagonal; it then
   * returns with the state unchanged as soon as it finds an empty cell, and
   * only on a full board does it record `Tie` and go on to the next index.
   */
  ghost function ScanFrom<K>(b: Board, i: int, mover: K, s: GameState<K>): (r: GameState<K>)
    requires WellFormedBoard(b) && 0 <= i <= 3
    ensures r == s || r == Tie || r == Won(mover)
    decreases 3 - i
  {
    if i == 3 then s
    else if IsWinningTrio(b, Row(i)) || IsWinningTrio(b, Column(i)) || IsWinningTrio(b, LeadingDiagonal) then Won(mover)
    else if !Full(b) then s
    else ScanFrom(b, i + 1, mover, Tie)
  }

  /** The state after `update_state` runs on board `b` from state `s`. */
  ghost function UpdatedState<K>(b: Board, mover: K, s: GameState<K>): GameState<K>
    requires WellFormedBoard(b)
  {
    ScanFrom(b, 0, mover, s)
  }

  /** One of the eight lines of the game (three rows, three columns, two diagonals) is uniformly marked. */
  ghost predicate HasWinningLine(b: Board)
    requires WellFormedBoard(b)
  {
    IsWinningTrio(b, Row(0)) || IsWinningTrio(b, Row(1)) || IsWinningTrio(b, Row(2)) ||
    IsWinningTrio(b, Column(0)) || IsWinningTrio(b, Column(1)) || IsWinningTrio(b, Column(2)) ||
    IsWinningTrio(b, LeadingDiagonal) || IsWinningTrio(b, AntiDiagonal)
  }

  /**
   * The rule of the game itself, which the program does not follow: any of
   * the eight lines wins for the mover; otherwise a full board is a tie.
   */
  ghost function IntendedState<K>(b: Board, mover: K, s: GameState<K>): GameState<K>
    requires WellFormedBoard(b)
  {
    if HasWinningLine(b) then Won(mover)
    else if Full(b) then Tie
    else s
  }

  /** Two well-formed boards that agree on every cell are equal. */
  lemma SameCells(a: Board, b: Board)
    requires WellFormedBoard(a) && WellFormedBoard(b)
    requires forall r, c :: 0 <= r < 3 && 0 <= c < 3 ==> a[r][c] == b[r][c]
    ensures a == b
  {
    forall r | 0 <= r < 3
      ensures a[r] == b[r]
    {
      assert forall c :: 0 <= c < 3 ==> a[r][c] == b[r][c];
    }
  }

  /** A snapshot of the `Game` account. */
  datatype GameData<K> = GameData(players: seq<K>, turn: nat, board: Board, state: GameState<K>)

  /** A game after `setup_game`: two keys, turn 1, turn counting from there. */
  ghost predicate WellFormed<K>(g: GameData<K>) {
    |g.players| == 2 && g.turn >= 1 && WellFormedBoard(g.board)
  }

  /** The game that `setup_game` produces from a freshly allocated account. */
  ghost function NewGame<K>(playerOne: K, playerTwo: K): GameData<K> {
    GameData([playerOne, playerTwo], 1, EmptyBoard, Active)
  }

  /** `Game::play`: the game after the move and what the call returns. */
  ghost function MoveResult<K>(g: GameData<K>, tile: Tile): (res: (GameData<K>, ProgramResult<TicTacToeError>))
    requires WellFormed(g)
    ensures WellFormed(res.0) && res.0.players == g.players
  {
    if !g.state.Active? then (g, Err(GameAlreadyOver))
    else if !(tile.row <= 2 && tile.column <= 2) then (g, Err(TileOutOfBounds))
    else
      var row, column := tile.row as int, tile.column as int;
      if g.board[row][column].Some? then (g, Err(TileAlreadySet))
      else
        var board := g.board[row := g.board[row][column := Some(SignOf(CurrentPlayerIndex(g.turn)))]];
        var state := UpdatedState(board, CurrentPlayer(g.players, g.turn), g.state);
        (GameData(g.players, if state.Active? then g.turn + 1 else g.turn, board, state), Ok)
  }

  /** The `play` instruction: the signer's turn is checked before anything else. */
  ghost function InstructionResult<K>(g: GameData<K>, player: K, tile: Tile): (res: (GameData<K>, ProgramResult<TicTacToeError>))
    requires WellFormed(g)
    ensures WellFormed(res.0) && res.0.players == g.players
  {
    if CurrentPlayer(g.players, g.turn) != player then (g, Err(NotPlayersTurn))
    else MoveResult(g, tile)
  }

  /** The `Game` account, updated in place by the instructions. */
  class Game<K(==,0)> {
    var players: seq<K>
    var turn: nat
    const board: array2<Cell>
    var state: GameState<K>

    ghost predicate Valid()
      reads this
    {
      |players| == 2 && board.Length0 == 3 && board.Length1 == 3
    }

    /** The zero-initialised account that `init` allocates: default keys, turn 0, empty board, `Active`. */
    constructor Default()
      ensures Valid() && fresh(board)
      ensures turn == 0 && state == Active
      ensures forall r, c :: 0 <= r < 3 && 0 <= c < 3 ==> board[r, c] == None
    {
      var zeroKey: K := *;
      players := [zeroKey, zeroKey];
      turn := 0;
      board := new Cell[3, 3]((_, _) => None);
      state := Active;
    }

    /** The board as a value. */
    function Cells(): (b: Board)
      reads this, board
      requires Valid()
      ensures WellFormedBoard(b)
      ensures forall r, c :: 0 <= r < 3 && 0 <= c < 3 ==> b[r][c] == board[r, c]
    {
      [[board[0, 0], board[0, 1], board[0, 2]],
       [board[1, 0], board[1, 1], board[1, 2]],
       [board[2, 0], board[2, 1], board[2, 2]]]
    }

    ghost function Snapshot(): GameData<K>
      reads this, board
      requires Valid()
    {
      GameData(players, turn, Cells(), state)
    }

    /** `update_state`: recompute `state` from the board, as the program's loops do it. */
    method UpdateState()
      requires Valid() && turn >= 1
      modifies this`state
      ensures state == UpdatedState(Cells(), CurrentPlayer(players, turn), old(state))
    {
      var i := 0;
      while i <= 2
        invariant 0 <= i <= 3
        invariant ScanFrom(Cells(), i, CurrentPlayer(players, turn), state)
               == ScanFrom(Cells(), 0, CurrentPlayer(players, turn), old(state))
      {
        if IsWinningTrio(Cells(), Row(i)) {
          state := Won(CurrentPlayer(players, turn));
          return;
        }
        if IsWinningTrio(Cells(), Column(i)) {
          state := Won(CurrentPlayer(players, turn));
          return;
        }
        if IsWinningTrio(Cells(), LeadingDiagonal) {
          state := Won(CurrentPlayer(players, turn));
          return;
        }
        var row := 0;
        while row <= 2
          invariant 0 <= row <= 3
          invariant forall r, c :: 0 <= r < row && 0 <= c < 3 ==> board[r, c].Some?
        {
          var column := 0;
          while column <= 2
            invariant 0 <= column <= 3
            invariant forall r, c :: 0 <= r < row && 0 <= c < 3 ==> board[r, c].Some?
            invariant forall c :: 0 <= c < column ==> board[row, c].Some?
          {
            if board[row, column].None? {
              return;
            }
            column := column + 1;
          }
          row := row + 1;
        }
        state := Tie;
        i := i + 1;
      }
    }

    /** `Game::play`: check the game is running and the tile is free, mark it, re-score, advance the turn. */
    method Play(tile: Tile) returns (result: ProgramResult<TicTacToeError>)
      requires Valid() && turn >= 1
      modifies this`turn, this`state, board
      ensures Valid()
      ensures (Snapshot(), result) == MoveResult(old(Snapshot()), tile)
    {
      if !state.Active? {
        return Err(GameAlreadyOver);
      }
      if tile.row <= 2 && tile.column <= 2 {
        var row, column := tile.row as int, tile.column as int;
        if board[row, column].Some? {
          return Err(TileAlreadySet);
        }
        board[row, column] := Some(SignOf(CurrentPlayerIndex(turn)));
        ghost var before := old(Cells());
        SameCells(Cells(), before[row := before[row][column := Some(SignOf(CurrentPlayerIndex(turn)))]]);
      } else {
        return Err(TileOutOfBounds);
      }
      UpdateState();
      if state.Active? {
        turn := turn + 1;
      }
      return Ok;
    }
  }

  /** `setup_game`: allocate the account and record the two players; the first one moves first. */
  method SetupGame<K(==,0)>(playerOne: K, playerTwo: K) returns (game: Game<K>)
    ensures fresh(game) && fresh(game.board) && game.Valid()
    ensures game.players == [playerOne, playerTwo] && game.turn == 1 && game.state == Active
    ensures forall r, c :: 0 <= r < 3 && 0 <= c < 3 ==> game.board[r, c] == None
    ensures game.Snapshot() == NewGame(playerOne, playerTwo)
  {
    game := new Game.Default();
    game.players := [playerOne, playerTwo];
    game.turn := 1;
  }

  /** The `play` instruction: only the current player may move. */
  method Play<K(==,0)>(game: Game<K>, player: K, tile: Tile) returns (result: ProgramResult<TicTacToeError>)
    requires game.Valid() && game.turn >= 1
    modifies game, game.board
    ensures game.Valid()
    ensures (game.Snapshot(), result) == InstructionResult(old(game.Snapshot()), player, tile)
  {
    if CurrentPlayer(game.players, game.turn) != player {
      return Err(NotPlayersTurn);
    }
    result := game.Play(tile);
  }
}
