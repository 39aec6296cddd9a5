# Tic-tac-toe and hello-anchor, modelled in Dafny

This project models the two Solana programs of the `anchor-book` examples.

**tic-tac-toe** (`anchor-book/tic-tac-toe/programs/tic-tac-toe/src/lib.rs`) is the rules engine of a
two-player game kept in one `Game` account. The account holds the two players' keys, a `turn`
counter, a 3x3 board of optional marks and a `GameState` (`Active`, `Tie` or `Won { winner }`).
There are two instructions:

- `setup_game` records the players; the first player is the signer.
- `play` checks that the signer is the current player and then calls `Game::play`.
  `Game::play` checks that the game is running and that the tile is a free cell on the board.
  It writes the mover's mark, re-scores the game with `update_state`, and advances `turn`
  while the game is still running.

**hello-anchor** (`anchor-book/hello-anchor/programs/hello-anchor/src/lib.rs`) has one instruction,
`set_data`. It refuses a record whose `data` is 100 or more. Otherwise it replaces the whole stored
`MyAccount` (`data` and `age`).

## Layout

- `anchor_types.dfy` (module `AnchorTypes`): `u8`, `u64` and the instruction result
  `ProgramResult<E>`, shared by both programs.
- `tic_tac_toe.dfy` (module `TicTacToe`) has three parts.
  - The value level: `GameData` is a snapshot of the account. `MoveResult` models `Game::play`,
    `InstructionResult` models the `play` entrypoint, and `ScanFrom`/`UpdatedState` model `update_state`.
  - The `Game` class: the board is a fixed `array2`. `UpdateState` and `Play` update the object in
    place. Each is proved to move its snapshot exactly as the value level says.
  - The entrypoint methods `SetupGame` and `Play`.
- `tic_tac_toe_proofs.dfy` (module `TicTacToeProofs`): the properties. They cover turn order,
  rejected moves, which cell a move changes, the turn counter and win/tie detection. They also
  prove an invariant of every reachable game (mark counts follow the turn, and the turn never
  passes 9) and work through two complete games.
- `hello_anchor.dfy` (module `HelloAnchor`): `set_data` as a guarded overwrite of an `Account` object.

## How the program scores a game, and where that differs from the game's rules

`update_state` (lib.rs:138-171) is modelled as written.

- Its tie scan sits inside the `for i` loop. On a board with an empty cell it therefore returns
  during the first round, after looking only at row 0, column 0 and the leading diagonal
  (`OpenBoardSeesOnlyFirstLines`).
- Rows and columns 1 and 2 are looked at only once the board is full. There a later round can
  overwrite the `Tie` written by an earlier one with `Won` (`FullBoardIsDecided`).
- The anti-diagonal (0,2), (1,1), (2,0) is never looked at.

The rule of the game, "any of the eight lines wins", is written separately as `IntendedState`.
The model does not claim the program follows it. What is proved:

- Every win the program reports is a real one (`ReportedWinIsReal`).
- On a full board the two rules differ only by the anti-diagonal (`FullBoardAgreesButForAntiDiagonal`).
- Two concrete boards show where they differ (`RowOneWinMissedOnOpenBoard`, `AntiDiagonalMissedOnFullBoard`).

The model follows the code where a natural reading of the design differs from it:

- The `play` entrypoint rejects a wrong signer with `NotPlayersTurn` (lib.rs:20-23) before
  `Game::play` checks for a finished game (lib.rs:105-107). So a wrong signer on a finished game
  gets `NotPlayersTurn`, not `GameAlreadyOver`.
- `setup_game` does not check that the two players differ.
- Consider the move sequence X (0,0), O (0,1), X (0,2), O (1,0), X (1,1), O (1,2), X (2,0),
  O (2,1), X (2,2). One might expect it to end in a tie. Under the code it is a win for X at the
  ninth move, on the leading diagonal. The anti-diagonal X completes at the seventh move goes
  unnoticed (`DiagonalGame`).

## Model

| member | source | states |
|---|---|---|
| `TicTacToe.IsWinningTrio` | anchor-book/tic-tac-toe/programs/tic-tac-toe/src/lib.rs:131-136 | true exactly when all three cells hold X or all three hold O |
| `TicTacToe.CurrentPlayerIndex` | anchor-book/tic-tac-toe/programs/tic-tac-toe/src/lib.rs:96-98 | index is 0 or 1, and 0 exactly on odd turns |
| `TicTacToe.CurrentPlayer` | anchor-book/tic-tac-toe/programs/tic-tac-toe/src/lib.rs:100-102 | the first player on odd turns, the second on even turns, always one of the two |
| `TicTacToe.ScanFrom` | anchor-book/tic-tac-toe/programs/tic-tac-toe/src/lib.rs:138-171 | the scan leaves the incoming state, `Tie`, or a win for the current player, and nothing else |
| `TicTacToe.MoveResult` | anchor-book/tic-tac-toe/programs/tic-tac-toe/src/lib.rs:104-129 | a move never changes the players and keeps the game well formed |
| `TicTacToe.InstructionResult` | anchor-book/tic-tac-toe/programs/tic-tac-toe/src/lib.rs:17-26 | the `play` instruction never changes the players and keeps the game well formed |
| `TicTacToe.Game.Default` | anchor-book/tic-tac-toe/programs/tic-tac-toe/src/lib.rs:29-42 | a freshly allocated game: turn 0, every cell empty, state `Active` |
| `TicTacToe.Game.Cells` | anchor-book/tic-tac-toe/programs/tic-tac-toe/src/lib.rs:34 | the board value holds exactly the array's nine cells |
| `TicTacToe.Game.UpdateState` | anchor-book/tic-tac-toe/programs/tic-tac-toe/src/lib.rs:138-171 | the loops leave `state` as the as-written scan `UpdatedState` defines, the board untouched |
| `TicTacToe.Game.Play` | anchor-book/tic-tac-toe/programs/tic-tac-toe/src/lib.rs:104-129 | the in-place move changes board, turn and state exactly as `MoveResult` and returns its result |
| `TicTacToe.SetupGame` | anchor-book/tic-tac-toe/programs/tic-tac-toe/src/lib.rs:10-15 | players are [signer, player two], turn 1, every cell empty, state `Active`, distinctness unchecked |
| `TicTacToe.Play` | anchor-book/tic-tac-toe/programs/tic-tac-toe/src/lib.rs:17-26 | the entrypoint changes the game exactly as `InstructionResult` and returns its result |
| `TicTacToeProofs.AlternatesOnContinuingMove` | anchor-book/tic-tac-toe/programs/tic-tac-toe/src/lib.rs:96-102 | after a move that keeps the game running, the other player is the current player |
| `TicTacToeProofs.WrongSignerRejectedFirst` | anchor-book/tic-tac-toe/programs/tic-tac-toe/src/lib.rs:20-23 | a signer other than the current player gets `NotPlayersTurn`, even on a finished game, and nothing changes |
| `TicTacToeProofs.RightSignerReachesMove` | anchor-book/tic-tac-toe/programs/tic-tac-toe/src/lib.rs:20-25 | the current player's instruction behaves exactly as `Game::play` |
| `TicTacToeProofs.FinishedGameRejectsMoves` | anchor-book/tic-tac-toe/programs/tic-tac-toe/src/lib.rs:92-94 | on a `Tie` or `Won` game every move returns `GameAlreadyOver` and changes nothing |
| `TicTacToeProofs.OutOfBoundsRejected` | anchor-book/tic-tac-toe/programs/tic-tac-toe/src/lib.rs:108-119 | a row or column above 2 returns `TileOutOfBounds` and changes nothing |
| `TicTacToeProofs.OccupiedTileRejected` | anchor-book/tic-tac-toe/programs/tic-tac-toe/src/lib.rs:112-113 | a marked cell returns `TileAlreadySet` and changes nothing |
| `TicTacToeProofs.MoveSucceedsExactlyWhen` | anchor-book/tic-tac-toe/programs/tic-tac-toe/src/lib.rs:104-120 | a move succeeds iff the game is active and the tile is an empty on-board cell; every error leaves the game unchanged |
| `TicTacToeProofs.MoveMarksOnlyTarget` | anchor-book/tic-tac-toe/programs/tic-tac-toe/src/lib.rs:112-117 | success turns exactly the empty target cell into X (player 0) or O (player 1); all other cells are unchanged |
| `TicTacToeProofs.MarksArePermanent` | anchor-book/tic-tac-toe/programs/tic-tac-toe/src/lib.rs:112-116 | no instruction clears or overwrites a marked cell |
| `TicTacToeProofs.TurnAdvancesIffStillActive` | anchor-book/tic-tac-toe/programs/tic-tac-toe/src/lib.rs:122-126 | after success the turn goes up by one iff the game is still `Active`, else it stays; errors never change it |
| `TicTacToeProofs.WinnerIsMover` | anchor-book/tic-tac-toe/programs/tic-tac-toe/src/lib.rs:140-158 | a win recorded by a move names the player who made it, since the turn has not advanced yet |
| `TicTacToeProofs.FirstLinesWin` | anchor-book/tic-tac-toe/programs/tic-tac-toe/src/lib.rs:139-159 | a uniform row 0, column 0 or leading diagonal gives `Won` for the mover on any board |
| `TicTacToeProofs.OpenBoardSeesOnlyFirstLines` | anchor-book/tic-tac-toe/programs/tic-tac-toe/src/lib.rs:161-167 | with an empty cell, only row 0, column 0 and the leading diagonal count; otherwise the state is unchanged |
| `TicTacToeProofs.FullBoardIsDecided` | anchor-book/tic-tac-toe/programs/tic-tac-toe/src/lib.rs:139-170 | a full board ends as `Won` iff a row, a column or the leading diagonal is uniform (overwriting `Tie`), else `Tie` |
| `TicTacToeProofs.TieOnlyOnFullBoard` | anchor-book/tic-tac-toe/programs/tic-tac-toe/src/lib.rs:161-169 | from a running game, `Tie` is recorded only when no cell is empty |
| `TicTacToeProofs.ReportedWinIsReal` | anchor-book/tic-tac-toe/programs/tic-tac-toe/src/lib.rs:138-171 | every win the scan reports is a uniform line, and the eight-line rule agrees |
| `TicTacToeProofs.FullBoardAgreesButForAntiDiagonal` | anchor-book/tic-tac-toe/programs/tic-tac-toe/src/lib.rs:138-171 | on a full board the scan and the eight-line rule agree unless the anti-diagonal is uniform |
| `TicTacToeProofs.RowOneWinMissedOnOpenBoard` | anchor-book/tic-tac-toe/programs/tic-tac-toe/src/lib.rs:161-167 | a uniform row 1 on an open board leaves the game `Active`, where the eight-line rule says won |
| `TicTacToeProofs.AntiDiagonalMissedOnFullBoard` | anchor-book/tic-tac-toe/programs/tic-tac-toe/src/lib.rs:139-170 | a full board whose only uniform line is the anti-diagonal ends `Tie`, where the eight-line rule says won |
| `TicTacToeProofs.MoveAddsOneMark` | anchor-book/tic-tac-toe/programs/tic-tac-toe/src/lib.rs:114-117 | a successful move adds one mark of the mover's sign and none of the other |
| `TicTacToeProofs.SetupIsConsistent` | anchor-book/tic-tac-toe/programs/tic-tac-toe/src/lib.rs:10-15 | a newly set-up game satisfies the reachable-game invariant |
| `TicTacToeProofs.MovePreservesConsistent` | anchor-book/tic-tac-toe/programs/tic-tac-toe/src/lib.rs:104-129 | `Game::play` keeps the invariant: X/O counts match the turn, a running game has an empty cell, a winner is a player |
| `TicTacToeProofs.InstructionPreservesConsistent` | anchor-book/tic-tac-toe/programs/tic-tac-toe/src/lib.rs:17-26 | the `play` instruction keeps the same invariant |
| `TicTacToeProofs.ConsistentTurnBound` | anchor-book/tic-tac-toe/programs/tic-tac-toe/src/lib.rs:33 | in a consistent game `turn` is at most 9, so the `u8` increment at line 125 cannot overflow |
| `TicTacToeProofs.FinishedGameIsFinal` | anchor-book/tic-tac-toe/programs/tic-tac-toe/src/lib.rs:105-107 | a finished game stays exactly as it is under any sequence of instructions |
| `TicTacToeProofs.ReplayPreservesConsistent` | anchor-book/tic-tac-toe/programs/tic-tac-toe/src/lib.rs:17-26 | any sequence of `play` instructions keeps the invariant |
| `TicTacToeProofs.ReplayKeepsMarks` | anchor-book/tic-tac-toe/programs/tic-tac-toe/src/lib.rs:112-116 | a mark survives every later sequence of instructions |
| `TicTacToeProofs.ReachableGame` | anchor-book/tic-tac-toe/programs/tic-tac-toe/src/lib.rs:10-26 | every game reachable from `setup_game` has turn at most 9, and any winner is one of the two players |
| `TicTacToeProofs.SecondPlayerCannotOpen` | anchor-book/tic-tac-toe/programs/tic-tac-toe/src/lib.rs:20-23 | on turn 1 the second player gets `NotPlayersTurn` |
| `TicTacToeProofs.RowThreeIsOutOfBounds` | anchor-book/tic-tac-toe/programs/tic-tac-toe/src/lib.rs:108-119 | the tile (3, 0) gets `TileOutOfBounds` |
| `TicTacToeProofs.RowZeroGame` | anchor-book/tic-tac-toe/programs/tic-tac-toe/src/lib.rs:139-145 | A (0,0), B (1,1), A (0,1), B (2,2), A (0,2) ends `Won` for A |
| `TicTacToeProofs.DiagonalGame` | anchor-book/tic-tac-toe/programs/tic-tac-toe/src/lib.rs:154-167 | the anti-diagonal at move 7 is missed (still `Active`, turn 8); the leading diagonal at move 9 wins for X |
| `HelloAnchor.SetDataResult` | anchor-book/hello-anchor/programs/hello-anchor/src/lib.rs:8-12 | accepted iff `data < 100`; on acceptance the stored record equals the input, on refusal it is unchanged with `DataTooLarge` |
| `HelloAnchor.SetData` | anchor-book/hello-anchor/programs/hello-anchor/src/lib.rs:8-12 | the account and result are exactly those of `SetDataResult`; the guard precedes the overwrite |
| `HelloAnchor.AgeIsNotValidated` | anchor-book/hello-anchor/programs/hello-anchor/src/lib.rs:9 | acceptance does not depend on `age`, and any `age` is stored as given |
| `HelloAnchor.BoundIsExclusive` | anchor-book/hello-anchor/programs/hello-anchor/src/lib.rs:9 | `data == 99` is stored; `data == 100` is refused and the account is unchanged |
| `HelloAnchor.SetDataIdempotent` | anchor-book/hello-anchor/programs/hello-anchor/src/lib.rs:10 | storing the same record twice leaves the same account and result as once |

## Left out

- Anchor account wiring is not modelled: the `SetupGame`, `Play` and `SetData` account structs, `init`/`payer`/`space`, `declare_id!` and `Game::MAXIMUM_SIZE`. Allocating the game account is modelled as `new Game.Default()`.
- Signature checking is not modelled. A `Pubkey` is the type parameter `K`, which supports only equality. The signer's key is a parameter of `Play`, and the first player's key is a parameter of `SetupGame`.
- Borsh serialisation is not modelled, nor are `FromPrimitive`/`ToPrimitive` or the conversion of `TicTacToeError`/`MyError` into the runtime's `ProgramError`. `Sign::from_usize(i).unwrap()` is the function `SignOf` (0 is X, 1 is O). The error enum is returned as it is.
- TicTacToe.Game.Play: `turn` is an unbounded `nat`, not a `u8`, so the increment never wraps. `ConsistentTurnBound` and `ReachableGame` prove that `turn` stays at most 9 in every game reachable from `setup_game`.
- TicTacToe.CurrentPlayerIndex: requires `turn >= 1`. The underflow of `turn - 1` in the source can only happen on a zeroed account that `setup_game` has not yet run on.
- The transaction semantics are not modelled: persistence of the account between instructions, and the runtime discarding account changes when an instruction fails. Every failing path in this model returns before it writes anything, so nothing is left to roll back.
- `anchor-book/hello-anchor/tests/hello-anchor.ts` is not modelled. It calls an `initialize` instruction the program does not define, and it asserts nothing.
- The commented-out `Data` struct and the token-account constraints in hello-anchor's `lib.rs` are not modelled.
