# A verified model of the P1-React-Chess rules engine

This project models the rules engine of P1-React-Chess, a two-player chess game
for the browser written in TypeScript. The engine has three parts:

- the **move generator**, `ChessMovesManager`. It walks the squares a figure
  can reach. It finds the enemy figures that reach a square. It decides whether
  a figure can move. It finds a King. It installs a move on a cell.
- the **board manager**, `ChessboardManager`. It is the state machine behind
  clicks: select a figure, show its moves, play a move, hand over the turn, and
  classify the position as Default, InProcess, Check, Checkmate, Mate or Draw.
- the **board factory**, `ChessboardFactory`. It builds the clear 8 x 8 board
  and the start position.

The repository holds two revisions of each part:

- the current one, under `src/services/chessboard/`;
- an older one, under `src/services/`.

Both are modelled. The older revision lives in the `Legacy*` modules. Lemmas
state where the two revisions agree and where they differ.

The engine's own end-of-game tests (`__tests__/endgameChecking.ts`) are restated
in `EndgameScenarios`. Each test becomes a lemma that gives the verdict of
`getNextGameState` on the test's position after the move.

How the program is represented:

- A cell is a value (`ChessModel.Cell`): its tint, its coordinates, its
  figure, its status and its action. The board is an 8 x 8 `seq<seq<Cell>>`
  held by a `Chessboard` object, and the managers reassign it.
- A callback-driven traversal (`processFor*Patterns`) is the ordered sequence of
  squares it hands to its callback (`Walk`). It also carries the error it throws
  after them, if any. A callback that returns `false` reads a prefix of that
  sequence.
- An exception is a `Fault` value. A method returns it together with the state
  it leaves at the throw.
- The pawn part of the attack search (`getReachingEnemyCells`,
  `doEnemyReachesSpecialCell`) is modelled as written. For a White enemy it
  looks one row up from the cell (towards row 0), for a Black enemy one row
  down, and it accepts an enemy figure of any kind there. White pawns advance
  towards row 0, so a White pawn that attacks a cell stands one row below it.
  The end-of-game positions hold no pawns, so their verdicts do not depend on
  this.
- A method that changes state is proved against a function of the old state:
  `Snapshot()` before and after, with `SelectCellOutcome`, `SwitchPlayerOutcome`
  and so on. The properties are proved about those functions.

## Model

| member | source | states |
|---|---|---|
| ChessModel.Opponent | src/services/chessboard/ChessMovesManager.ts:129 | The enemy colour of a figure is never its own colour |
| ChessModel.NewFigure | src/models/figures/Pawn.ts:12-16 | A new figure has the requested kind and colour and has not moved |
| ChessModel.Holding | src/services/chessboard/ChessMovesManager.ts:212-223 | A search callback of `getReachingEnemyCells` collects exactly the visited squares holding an enemy figure of the searched kinds, and nothing else |
| ChessModel.Chessboard.constructor | src/models/chessboards/Chessboard.ts:9-11 | The board object holds the matrix it is given |
| MovesManager.Ray | src/services/chessboard/ChessMovesManager.ts:699-725 | One ray yields only on-board squares that are empty or hold an enemy, and never the ignored cell |
| MovesManager.RayStep | src/services/chessboard/ChessMovesManager.ts:702-724 | One step of the `while (true)` loop: the ignored cell is skipped, an empty square is yielded and the ray goes on, an enemy square is yielded and ends the ray, and a teammate ends it with nothing yielded |
| MovesManager.RayContains | src/services/chessboard/ChessMovesManager.ts:699-725 | Every passable, non-ignored square that lies past a clear stretch of the ray is yielded |
| MovesManager.RayMember | src/services/chessboard/ChessMovesManager.ts:699-725 | Conversely, every yielded square lies some n >= 1 steps along the ray, with only empty or ignored squares before it |
| MovesManager.RayStopsAtFirstFigure | src/services/chessboard/ChessMovesManager.ts:716-724 | Every square the ray yields before its last is empty, so the ray stops at the first figure |
| MovesManager.Lines | src/services/chessboard/ChessMovesManager.ts:684-727 | The rays of all directions, in order, yield only passable, on-board, non-ignored squares |
| MovesManager.LinesMember | src/services/chessboard/ChessMovesManager.ts:684-727 | A square is on the concatenated rays exactly when one direction's ray yields it |
| MovesManager.LinesIff | src/services/chessboard/ChessMovesManager.ts:741-784 | The straight or diagonal traversal yields exactly the passable, non-ignored squares that lie along one of its directions behind a clear stretch |
| MovesManager.Steps | src/services/chessboard/ChessMovesManager.ts:515-538 | A fixed-offset traversal yields only on-board, non-ignored squares that are empty or hold an enemy |
| MovesManager.StepsMember | src/services/chessboard/ChessMovesManager.ts:552-587 | A square is yielded exactly when it is one of the offsets away, on the board, not ignored and passable |
| MovesManager.KingStepsIff | src/services/chessboard/ChessMovesManager.ts:552-587 | The King's traversal yields exactly the adjacent on-board squares that are passable and not ignored |
| MovesManager.KnightStepsIff | src/services/chessboard/ChessMovesManager.ts:515-538 | The Knight's traversal yields exactly the squares a knight's jump away that are on the board and passable |
| MovesManager.PawnWalk | src/services/chessboard/ChessMovesManager.ts:599-670 | The pawn traversal yields on-board passable squares; its off-board read throws only after a square was yielded |
| MovesManager.PawnPushes | src/services/chessboard/ChessMovesManager.ts:609-638 | The forward checks yield only empty squares; the unguarded two-square read throws only after the first square |
| MovesManager.PawnCaptures | src/services/chessboard/ChessMovesManager.ts:640-669 | The diagonal checks yield only on-board squares holding an enemy |
| MovesManager.PawnWalkIff | src/services/chessboard/ChessMovesManager.ts:599-670 | The traversal throws exactly for an unmoved pawn with a free square ahead and no row two squares ahead, after yielding that square; otherwise it yields exactly the one-step push, the two-step push of an unmoved pawn over empty squares, and the two diagonal captures |
| MovesManager.PatternWalk | src/services/chessboard/ChessMovesManager.ts:408-440 | The dispatch on the figure's kind yields on-board passable squares; an empty cell throws at once with nothing yielded, which is the only fault with an empty walk |
| MovesManager.ReachingEnemyCells | src/services/chessboard/ChessMovesManager.ts:203-344 | Only on-board squares holding an enemy figure are returned |
| MovesManager.HoldingIff | src/services/chessboard/ChessMovesManager.ts:212-223 | A square is collected exactly when it was visited and holds an enemy of the searched kinds |
| MovesManager.StraightPart | src/services/chessboard/ChessMovesManager.ts:212-230 | The straight search finds exactly the enemy Rooks and Queens that see the cell along a clear row or column |
| MovesManager.DiagonalPart | src/services/chessboard/ChessMovesManager.ts:234-252 | The diagonal search finds exactly the enemy Bishops and Queens that see the cell along a clear diagonal |
| MovesManager.KingPart | src/services/chessboard/ChessMovesManager.ts:255-270 | The King search finds exactly an adjacent, non-ignored enemy King |
| MovesManager.KnightPart | src/services/chessboard/ChessMovesManager.ts:273-284 | The Knight search finds exactly the enemy Knights a jump away; the ignored cell plays no part |
| MovesManager.PawnSquaresOnBoard | src/services/chessboard/ChessMovesManager.ts:286-341 | The pawn search looks at exactly the on-board squares one column to each side on the row before the cell (White enemy) or after it (Black enemy) |
| MovesManager.ReachingEnemyCellsSplit | src/services/chessboard/ChessMovesManager.ts:203-344 | The result is the five searches' finds in program order: straight, diagonal, King, Knight, pawn |
| MovesManager.ReachingEnemyCellsParts | src/services/chessboard/ChessMovesManager.ts:203-344 | A square is returned exactly when one of the five searches finds it |
| MovesManager.ReachingEnemyCellsIff | src/services/chessboard/ChessMovesManager.ts:203-344 | A square is returned exactly when it holds an enemy figure that is a Rook or Queen on a clear line, a Bishop or Queen on a clear diagonal, an adjacent King, a Knight a jump away, or any figure on a pawn square; the ignored cell counts as empty for the sliding figures |
| MovesManager.TeamRelations | src/services/chessboard/ChessMovesManager.ts:381-394 | `isTeammates` and `isEnemies` are symmetric and exclusive, and one of them holds exactly when both cells are occupied |
| MovesManager.KingMoveHasSafeStep | src/services/chessboard/ChessMovesManager.ts:138-156 | A King that `canMoveFromCell` accepts has an adjacent non-teammate square that no enemy reaches once the King's own square is ignored |
| MovesManager.SafeStepLetsKingMove | src/services/chessboard/ChessMovesManager.ts:138-156 | Conversely, such a safe square makes `canMoveFromCell` true |
| MovesManager.CanMoveFromKingIff | src/services/chessboard/ChessMovesManager.ts:124-189 | A King can move exactly when it has a safe step |
| MovesManager.CanMoveFrom | src/services/chessboard/ChessMovesManager.ts:124-189 | `canMoveFromCell` is true only for an occupied cell with a square of the board that holds no teammate of it |
| MovesManager.IsTeammates | src/services/chessboard/ChessMovesManager.ts:392-394 | Two cells are teammates only when both hold a figure, and an occupied cell is its own teammate |
| MovesManager.IsEnemies | src/services/chessboard/ChessMovesManager.ts:381-383 | Two cells are enemies only when both hold a figure, and then exactly when they are not teammates |
| MovesManager.CanMoveFromOtherIff | src/services/chessboard/ChessMovesManager.ts:159-185 | Any other figure can move exactly when its traversal yields a square, even when the pawn traversal throws afterwards |
| MovesManager.KingFrom | src/services/chessboard/ChessMovesManager.ts:351-372 | The row-major scan from a position finds the first King of the colour at or after it, or reports that none is there |
| MovesManager.FindKing | src/services/chessboard/ChessMovesManager.ts:351-372 | `findKingCell` returns the first King of the colour in row-major order, and fails only when the board has none |
| MovesManager.InstallMove | src/services/chessboard/ChessMovesManager.ts:62-79 | `setOnMoveAction` throws exactly for a teammate's square or a square holding a King, with the matching error; otherwise the destination alone changes: Target if occupied, OnWay if empty, with the move installed |
| MovesManager.Landed | src/services/chessboard/ChessMovesManager.ts:99-114 | The figure that arrives keeps its kind and colour; a Pawn arrives marked as moved |
| MovesManager.Relocate | src/services/chessboard/ChessMovesManager.ts:99-114 | The move empties the origin, puts the figure on the destination, and leaves every other cell alone |
| MovesManager.RaySameFigures | src/services/chessboard/ChessMovesManager.ts:699-725 | A ray depends on the figures of the board only, not on statuses or actions |
| MovesManager.LinesSameFigures | src/services/chessboard/ChessMovesManager.ts:684-727 | The line traversals depend on the figures only |
| MovesManager.StepsSameFigures | src/services/chessboard/ChessMovesManager.ts:515-538 | The offset traversals depend on the figures only |
| MovesManager.HoldingSameFigures | src/services/chessboard/ChessMovesManager.ts:212-223 | The search callbacks depend on the figures only |
| MovesManager.ReachingSameFigures | src/services/chessboard/ChessMovesManager.ts:203-344 | `getReachingEnemyCells` depends on the figures only |
| MovesManager.PawnWalkSameFigures | src/services/chessboard/ChessMovesManager.ts:599-670 | The pawn traversal depends on the figures only |
| MovesManager.PawnPushesSameFigures | src/services/chessboard/ChessMovesManager.ts:609-638 | The pawn pushes depend on the figures only |
| MovesManager.PawnCapturesSameFigures | src/services/chessboard/ChessMovesManager.ts:640-669 | The pawn captures depend on the figures only |
| MovesManager.PatternSameFigures | src/services/chessboard/ChessMovesManager.ts:408-440 | `processForCellsFigurePattern` depends on the figures only |
| MovesManager.CanMoveSameFigures | src/services/chessboard/ChessMovesManager.ts:124-189 | `canMoveFromCell` depends on the figures only, so selecting or marking cells never changes it |
| MovesManager.ChessMovesManager.constructor | src/services/chessboard/ChessMovesManager.ts:33-53 | The move generator works on the board it is given |
| MovesManager.ChessMovesManager.SetChessboard | src/services/chessboard/ChessMovesManager.ts:25-31 | The move generator switches to the given board |
| MovesManager.ChessMovesManager.WalkRay | src/services/chessboard/ChessMovesManager.ts:699-725 | The loop yields exactly the ray |
| MovesManager.ChessMovesManager.WalkLines | src/services/chessboard/ChessMovesManager.ts:684-727 | The loop over directions yields exactly the rays in order |
| MovesManager.ChessMovesManager.WalkSteps | src/services/chessboard/ChessMovesManager.ts:552-587 | The loop over offsets yields exactly the passable on-board squares, in offset order |
| MovesManager.ChessMovesManager.WalkPawn | src/services/chessboard/ChessMovesManager.ts:599-670 | The pawn traversal yields the pushes, then the captures, with the pushes' error |
| MovesManager.ChessMovesManager.CollectPushes | src/services/chessboard/ChessMovesManager.ts:609-638 | The forward checks yield the pushes and throw where the unguarded read leaves the board |
| MovesManager.ChessMovesManager.CollectCaptures | src/services/chessboard/ChessMovesManager.ts:640-669 | The capture checks yield the capturable squares |
| MovesManager.ChessMovesManager.ProcessForCellsFigurePattern | src/services/chessboard/ChessMovesManager.ts:408-440 | The dispatch yields the figure's traversal, or throws for an empty cell |
| MovesManager.ChessMovesManager.PushHolding | src/services/chessboard/ChessMovesManager.ts:212-223 | The callback appends exactly the visited enemy squares of the searched kinds |
| MovesManager.ChessMovesManager.GetReachingEnemyCells | src/services/chessboard/ChessMovesManager.ts:203-344 | The method returns the specified list of reaching enemies, in search order |
| MovesManager.ChessMovesManager.CanMoveFromCell | src/services/chessboard/ChessMovesManager.ts:124-189 | The flag is the specified movability, whose meaning is given by the two `Iff` lemmas |
| MovesManager.ChessMovesManager.FindFreeAroundKing | src/services/chessboard/ChessMovesManager.ts:138-156 | The King's callback stops with true exactly when some visited square is a safe step |
| MovesManager.ChessMovesManager.FindNonTeammate | src/services/chessboard/ChessMovesManager.ts:159-185 | The other figures' callback stops with true exactly when some visited square holds no teammate |
| MovesManager.ChessMovesManager.FindKingCell | src/services/chessboard/ChessMovesManager.ts:351-372 | The nested loops return the first King of the colour in row-major order, or fail when there is none |
| MovesManager.ChessMovesManager.SetOnMoveAction | src/services/chessboard/ChessMovesManager.ts:62-79 | The board changes as `InstallMove` says, or not at all when it throws |
| MovesManager.ChessMovesManager.RunMoveAction | src/services/chessboard/ChessMovesManager.ts:99-114 | The installed closure relocates the figure |
| BoardFactory.ClearGrid | src/services/chessboard/ChessboardFactory.ts:48-71 | The clear board is 8 x 8, and each cell knows its coordinates, has no figure, is Default with no action, and is White exactly when row + column is even |
| BoardFactory.Filled | src/services/chessboard/ChessboardFactory.ts:77-100 | A side's fill changes figures only, and only on that side's pawn row and back row |
| BoardFactory.NewBoardCells | src/services/chessboard/ChessboardFactory.ts:20-27 | The start position is a well-formed 8 x 8 board |
| BoardFactory.ClearCells | src/services/chessboard/ChessboardFactory.ts:48-71 | The nested loops with their tint counter build exactly the clear board |
| BoardFactory.GetClearBoard | src/services/chessboard/ChessboardFactory.ts:48-71 | A fresh board object holding the clear board |
| BoardFactory.FillWithFigures | src/services/chessboard/ChessboardFactory.ts:106-129 | The loop places the pawns on the pawn row and the back rank on the back row |
| BoardFactory.FillWithWhiteFigures | src/services/chessboard/ChessboardFactory.ts:77-100 | White pawns go on row 6, the White back rank on row 7 |
| BoardFactory.FillWithBlackFigures | src/services/chessboard/ChessboardFactory.ts:106-129 | Black pawns go on row 1, the Black back rank on row 0 |
| BoardFactory.GetNewBoard | src/services/chessboard/ChessboardFactory.ts:20-27 | A fresh board holding the start position |
| BoardFactory.NewBoardSquares | src/services/chessboard/ChessboardFactory.ts:20-27 | Every square of the start position: its tint, Default status, no action, and its figure (back rank, pawns, or nothing on rows 2-5) |
| BoardFactory.NewBoardColors | src/services/chessboard/ChessboardFactory.ts:20-27 | A square holds a figure of a colour exactly on that colour's two home rows |
| BoardFactory.BackRankKing | src/services/chessboard/ChessboardFactory.ts:92-99 | The back rank has its King in column 3 only |
| BoardFactory.NewBoardOneKing | src/services/chessboard/ChessboardFactory.ts:20-27 | Each colour has exactly one King, in column 3 of its back row |
| BoardFactory.NewBoardFindKing | src/services/chessboard/ChessMovesManager.ts:351-372 | `findKingCell` on the start position finds each King in column 3 of its back row |
| BoardManager.ResetCells | src/services/chessboard/ChessboardManager.ts:177-189 | Every cell becomes Default with no action and keeps its figure, so no installed move is left |
| BoardManager.Cancel | src/services/chessboard/ChessboardManager.ts:377-380 | `cancelSelect` keeps the manager's invariant |
| BoardManager.InstallMoves | src/services/chessboard/ChessboardManager.ts:342-367 | `selectCell`'s callback changes no figure, and every move it installs joins two cells of the board |
| BoardManager.SelectCellOutcome | src/services/chessboard/ChessboardManager.ts:329-372 | `selectCell` keeps the manager's invariant, whatever it throws; `ManagerProperties.SelectCellExact` states the resulting state |
| BoardManager.ScannedTeam | src/services/chessboard/ChessboardManager.ts:303-323 | The scan's first n cells yield on-board positions only |
| BoardManager.ScannedTeamIff | src/services/chessboard/ChessboardManager.ts:303-323 | A cell is among the first n scanned team cells exactly when it holds a figure of the colour and is scanned before n |
| BoardManager.TeamCells | src/services/chessboard/ChessboardManager.ts:303-323 | `getOneTeamCells` returns on-board positions |
| BoardManager.TeamCellsIff | src/services/chessboard/ChessboardManager.ts:303-323 | A cell is returned exactly when it holds a figure of the colour |
| BoardManager.ScannedTeamCount | src/services/chessboard/ChessboardManager.ts:303-323 | On a board whose figures of a colour fill its home rows, the scan counts one per home square |
| BoardManager.NewBoardSixteenEach | src/services/chessboard/ChessboardFactory.ts:20-27 | The start position gives each side sixteen figures |
| BoardManager.SomeCanMoveIff | src/services/chessboard/ChessboardManager.ts:285-290 | The loop over the team's cells answers whether some listed figure can move |
| BoardManager.NextGameStateTarget | src/services/chessboard/ChessboardManager.ts:240-294 | Without a King the classification throws and keeps the old target; otherwise the new priority target exists exactly when the King is attacked, and is then one of the attackers |
| BoardManager.NextGameState | src/services/chessboard/ChessboardManager.ts:240-294 | The classification throws "King not found" exactly when the side has no King, throws nothing but that and the last-figures error, answers Check or Checkmate whenever it names a target, and Draw, InProcess or Mate otherwise |
| BoardManager.CanBeat | src/services/chessboard/ChessboardManager.ts:388-426 | With no priority target the check throws; an answer means the target holds an enemy of the cell, and yes means the target lies on the cell's own move walk |
| BoardManager.MayInstallIff | src/services/chessboard/ChessboardManager.ts:342-366 | A King's step is installed exactly when no enemy reaches it with the King ignored; any other figure's move exactly when there is no priority target or the move lands on it |
| BoardManager.NextGameStateOnBoard | src/services/chessboard/ChessboardManager.ts:246-264 | The recorded priority target is always a square of the board |
| BoardManager.SwitchPlayerOutcome | src/services/chessboard/ChessboardManager.ts:209-229 | `switchPlayer` keeps the manager's invariant; `ManagerProperties.SwitchPlayerFlips` states the resulting state |
| BoardManager.RunActionOutcome | src/services/chessboard/ChessMovesManager.ts:89-115 | Running a cell's action keeps the manager's invariant; `ManagerProperties.MoveClickPlays` and `IdleClickThenMove` state the move it plays |
| BoardManager.RelocateKeepsActions | src/services/chessboard/ChessMovesManager.ts:99-114 | Moving a figure changes no status and no action, so every installed move stays on the board |
| BoardManager.ClickDefaultWhileSelected | src/services/chessboard/ChessboardManager.ts:83-108 | A click on a Default cell while a figure is selected keeps the invariant; `ManagerProperties.TeammateClick` and `ClickElsewhereCancels` state its outcome |
| BoardManager.ClickWhileIdle | src/services/chessboard/ChessboardManager.ts:125-148 | A click with nothing selected keeps the invariant; `ManagerProperties.IdleClickSelectsOwnFigure`, `CheckIdleClick` and `GameOverIgnoresClicks` state its outcome |
| BoardManager.OnActionOutcome | src/services/chessboard/ChessboardManager.ts:76-151 | `onAction` keeps the invariant: 8 x 8 board, installed moves on it, remembered cells on it; the click lemmas of `ManagerProperties` state its outcome case by case |
| BoardManager.RunThenCancel | src/services/chessboard/ChessboardManager.ts:116-120 | Playing a move and cancelling keeps the invariant; `ManagerProperties.RunThenCancelPlays` states the resulting state |
| BoardManager.ChessboardManager.constructor | src/services/chessboard/ChessboardManager.ts:43-69 | A fresh move generator on the board; every cell is reset; White is to move in state Default with nothing selected and no target |
| BoardManager.ChessboardManager.SetNewChessboard | src/services/chessboard/ChessboardManager.ts:156-172 | A new board and move generator, every cell reset, the game information back to its start, the selection flag and the selected coordinate untouched (the program keeps the old board's cell object; see Left out) |
| BoardManager.ChessboardManager.SetDefaultCellsState | src/services/chessboard/ChessboardManager.ts:177-189 | The nested loops reset every cell |
| BoardManager.ChessboardManager.CancelSelect | src/services/chessboard/ChessboardManager.ts:377-380 | The new state is `Cancel` of the old one |
| BoardManager.ChessboardManager.GetOneTeamCells | src/services/chessboard/ChessboardManager.ts:303-323 | The nested loops return the team's cells in row-major order |
| BoardManager.ChessboardManager.FindMovable | src/services/chessboard/ChessboardManager.ts:285-290 | The loop finds whether some listed figure can move |
| BoardManager.ChessboardManager.GetNextGameState | src/services/chessboard/ChessboardManager.ts:240-294 | The state and error are the classification's, and only the priority target is updated |
| BoardManager.ChessboardManager.Classify | src/services/chessboard/ChessboardManager.ts:241-293 | After the King search, the branches give the classification's state, error and on-board target |
| BoardManager.ChessboardManager.ClassifyCheck | src/services/chessboard/ChessboardManager.ts:246-264 | The attacked-King branch gives Check or Checkmate as specified |
| BoardManager.ChessboardManager.ClassifyQuiet | src/services/chessboard/ChessboardManager.ts:266-293 | The quiet branch gives Draw, InProcess or Mate, or the last-figures error |
| BoardManager.ChessboardManager.SwitchPlayer | src/services/chessboard/ChessboardManager.ts:209-229 | The new state is `SwitchPlayerOutcome` of the old one |
| BoardManager.ChessboardManager.SelectCell | src/services/chessboard/ChessboardManager.ts:329-372 | The new state and error are `SelectCellOutcome` of the old state |
| BoardManager.ChessboardManager.InstallAlong | src/services/chessboard/ChessboardManager.ts:342-367 | Applying the callback to each walked square in turn gives `InstallMoves` and its error |
| BoardManager.ChessboardManager.CanBeatPriorityTarget | src/services/chessboard/ChessboardManager.ts:388-426 | The answer or error is `CanBeat` of the current state |
| BoardManager.ChessboardManager.FindTarget | src/services/chessboard/ChessboardManager.ts:410-417 | The callback finds the target exactly when the walk visits it |
| BoardManager.ChessboardManager.RunAction | src/services/chessboard/ChessMovesManager.ts:89-115 | The new state is `RunActionOutcome` of the old one |
| BoardManager.ChessboardManager.OnAction | src/services/chessboard/ChessboardManager.ts:76-151 | The new state and error are `OnActionOutcome` of the old state |
| ManagerProperties.CancelResets | src/services/chessboard/ChessboardManager.ts:377-380 | Cancelling clears the selection, resets every cell, keeps the figures and game information, and a second cancel changes nothing |
| ManagerProperties.InstallMovesAt | src/services/chessboard/ChessboardManager.ts:342-367 | Seen from one square: when nothing throws, it is marked with the move exactly when the walk visits it and the King-safety and priority-target test lets it through |
| ManagerProperties.InstallMovesExact | src/services/chessboard/ChessboardManager.ts:342-367 | The same, for every square of the board at once |
| ManagerProperties.SelectCellExact | src/services/chessboard/ChessboardManager.ts:329-372 | A cell that is not Default and an empty cell are refused with their errors and no change; otherwise the cell becomes Active and selected, and exactly the allowed squares of its walk get the move |
| ManagerProperties.IdleClickSelectsOwnFigure | src/services/chessboard/ChessboardManager.ts:125-148 | With nothing selected, a click selects only a Default cell of the side to move, only in Default, InProcess or Check, and in Check only a King that can move or a figure that can take the priority target; it never changes the game information |
| ManagerProperties.CheckIdleClick | src/services/chessboard/ChessboardManager.ts:138-145 | In Check, with nothing selected, a click on a figure of the side to move goes through `selectCell` when it is a King that can move or it can take the priority target, and then ends selected exactly when `selectCell` does not throw; otherwise a "no" leaves everything as it was and an error is thrown with nothing changed |
| ManagerProperties.TeammateClick | src/services/chessboard/ChessboardManager.ts:84-103 | A click on a teammate of the selected figure resets the cells and switches to it outside Check; in Check it switches when the teammate can take the target, cancels on "no", and passes the error on |
| ManagerProperties.CanBeatCases | src/services/chessboard/ChessboardManager.ts:388-426 | An empty target, an empty cell and a target of the cell's own colour are the three errors; for an enemy target the answer is true exactly when the target is on the cell's walk, false exactly when it is not and the walk did not throw, and the walk's error otherwise |
| ManagerProperties.CanBeatSlider | src/services/chessboard/ChessboardManager.ts:388-426 | A Rook, Bishop or Queen can take the target exactly when it sees it along one of its own clear lines |
| ManagerProperties.CanBeatStepper | src/services/chessboard/ChessboardManager.ts:388-426 | A Knight can take the target exactly when it is a knight's jump away, a King exactly when it is adjacent |
| ManagerProperties.CanBeatSameFigures | src/services/chessboard/ChessboardManager.ts:388-426 | Whether a figure can take the target depends on the figures and the target only |
| ManagerProperties.RelocateSameFigures | src/services/chessboard/ChessMovesManager.ts:99-114 | Moving the same figure on two boards with the same figures gives boards with the same figures |
| ManagerProperties.ScannedTeamSameFigures | src/services/chessboard/ChessboardManager.ts:303-323 | The scan for a side's cells depends on the figures only |
| ManagerProperties.SomeCanMoveSameFigures | src/services/chessboard/ChessboardManager.ts:285-290 | Whether some listed figure can move depends on the figures only |
| ManagerProperties.CheckStateSameFigures | src/services/chessboard/ChessboardManager.ts:246-264 | The attacked-King verdict depends on the figures only |
| ManagerProperties.QuietVerdictSameFigures | src/services/chessboard/ChessboardManager.ts:266-293 | The quiet verdict depends on the figures only |
| ManagerProperties.NextGameStateSameFigures | src/services/chessboard/ChessboardManager.ts:240-294 | The classification depends on the figures and the old target only, so marked cells never change it |
| ManagerProperties.IdleClickThenMove | __tests__/endgameChecking.ts:59-61 | The tests' two steps, a click on a non-King figure and then running the action of a square of its walk, select the figure, install that move, relocate it, hand the turn over and give the classification of the moved board; the same holds when the second step is a click |
| ManagerProperties.GameOverIgnoresClicks | src/services/chessboard/ChessboardManager.ts:125-148 | After Mate, Checkmate or Draw, with nothing selected, a click changes nothing |
| ManagerProperties.ClickElsewhereCancels | src/services/chessboard/ChessboardManager.ts:83-113 | A click on the selected cell, or on a Default cell that holds no teammate of it, cancels the selection and resets every cell |
| ManagerProperties.SwitchPlayerFlips | src/services/chessboard/ChessboardManager.ts:209-229 | The other side is to move; state, target and error are the classification's for it; selection and figures stay |
| ManagerProperties.RunThenCancelPlays | src/services/chessboard/ChessboardManager.ts:116-120 | Playing an installed move relocates the figure and hands over the turn; unless the classification throws, the selection is cancelled and every cell reset |
| ManagerProperties.MoveClickPlays | src/services/chessboard/ChessboardManager.ts:116-120 | A click on an OnWay or Target cell while selected plays its move: figure relocated, other side to move |
| ManagerProperties.AttackedKingVerdict | src/services/chessboard/ChessboardManager.ts:246-264 | An attacked King: no error, the first attacker is the target, and Checkmate exactly when the King cannot move and no ally, the King ignored, reaches the attacker; Check otherwise |
| ManagerProperties.QuietKing | src/services/chessboard/ChessboardManager.ts:266-293 | A King that is not attacked gets the quiet verdict with no target |
| ManagerProperties.LastFiguresVerdict | src/services/chessboard/ChessboardManager.ts:273-282 | With one figure per side, the verdict is Draw when both are Kings, and throws otherwise |
| ManagerProperties.MateIff | src/services/chessboard/ChessboardManager.ts:285-293 | Otherwise a quiet position never throws and is Mate exactly when no figure of the side can move, InProcess otherwise |
| ManagerProperties.MissingKingVerdict | src/services/chessboard/ChessMovesManager.ts:351-372 | A side with no King: the classification throws and keeps the state and the target |
| LegacyMovesManager.LegacyRay | src/services/ChessMovesManager.ts:603-638 | One ray of the older traversal yields only passable on-board squares |
| LegacyMovesManager.LegacyRayStep | src/services/ChessMovesManager.ts:603-638 | One step of the older loop: a passable square is yielded; the ray goes on past an empty or ignored square and stops at a figure |
| LegacyMovesManager.LegacyRayNone | src/services/ChessMovesManager.ts:603-638 | Without an ignored cell the older ray equals the current one |
| LegacyMovesManager.LegacyLines | src/services/ChessMovesManager.ts:652-687 | The older line traversals yield only passable on-board squares |
| LegacyMovesManager.LegacyLinesNone | src/services/ChessMovesManager.ts:652-687 | Without an ignored cell the older lines equal the current ones |
| LegacyMovesManager.LegacyRayContains | src/services/ChessMovesManager.ts:603-638 | A passable square past a clear stretch is yielded, even when it is the ignored cell |
| LegacyMovesManager.LegacyRayMember | src/services/ChessMovesManager.ts:603-638 | Every yielded square lies n >= 1 steps along past a clear stretch |
| LegacyMovesManager.LegacyRayStops | src/services/ChessMovesManager.ts:603-638 | Every yielded square but the last is empty or the ignored cell |
| LegacyMovesManager.LegacyLinesMember | src/services/ChessMovesManager.ts:603-638 | A square is on the older lines exactly when one of the rays yields it |
| LegacyMovesManager.LegacyLinesIff | src/services/ChessMovesManager.ts:652-687 | The older lines yield exactly the passable squares seen along a direction, the ignored cell counting as clear |
| LegacyMovesManager.LegacyPatternWalk | src/services/ChessMovesManager.ts:144-162 | The older dispatch on a non-King figure yields passable on-board squares |
| LegacyMovesManager.LegacySearches | src/services/ChessMovesManager.ts:179-343 | The five older searches find only enemy figures on the board |
| LegacyMovesManager.EnemyReachesSplit | src/services/ChessMovesManager.ts:179-343 | `doEnemyReachesSpecialCell` is true exactly when one of its five searches finds a figure |
| LegacyMovesManager.LegacyStraightPart | src/services/ChessMovesManager.ts:192-214 | The older straight search finds exactly the enemy Rooks and Queens seeing the cell along a row or column clear but for the ignored cell |
| LegacyMovesManager.LegacyDiagonalPart | src/services/ChessMovesManager.ts:218-240 | The older diagonal search finds exactly the enemy Bishops and Queens seeing the cell along such a diagonal |
| LegacyMovesManager.LegacySearchesParts | src/services/ChessMovesManager.ts:179-343 | A square is found exactly when one of the five searches finds it |
| LegacyMovesManager.LegacySearchesIff | src/services/ChessMovesManager.ts:179-343 | The searches find exactly the enemy figures that reach the cell by their kind's rule |
| LegacyMovesManager.EnemyReachesIff | src/services/ChessMovesManager.ts:179-343 | `doEnemyReachesSpecialCell` answers whether some enemy figure reaches the cell |
| LegacyMovesManager.EnemyReaches | src/services/ChessMovesManager.ts:179-343 | A yes means some square of the board holds a figure of the enemy colour |
| LegacyMovesManager.LegacyCanMoveFrom | src/services/ChessMovesManager.ts:103-166 | The older `canMoveFromCell` is true only for an occupied cell with a square of the board that holds no teammate of it |
| LegacyMovesManager.KingVetoed | src/services/ChessMovesManager.ts:53-61 | Only a King's move is vetoed, and only when an enemy figure is on the board |
| LegacyMovesManager.SearchesAgreeAt | src/services/ChessMovesManager.ts:179-343 | The older searches and `getReachingEnemyCells` find the same squares |
| LegacyMovesManager.EnemyReachesAgrees | src/services/ChessMovesManager.ts:179-343 | `doEnemyReachesSpecialCell` is true exactly when `getReachingEnemyCells` is non-empty |
| LegacyMovesManager.LegacyInstallMove | src/services/ChessMovesManager.ts:40-94 | The older `setOnMoveAction` throws exactly for a teammate's square; a King move to a reached square changes nothing; otherwise the destination gets the move, Target if occupied, OnWay if empty; no other cell changes |
| LegacyMovesManager.LegacyInstallMoveAgrees | src/services/ChessMovesManager.ts:40-94 | Away from a King's square, the older `setOnMoveAction` is the current one, except that it vetoes a King move to a reached square |
| LegacyMovesManager.LegacyPatternWalkAgrees | src/services/ChessMovesManager.ts:144-162 | The older dispatch yields what the current traversal yields |
| LegacyMovesManager.LegacyKingMayGoAgrees | src/services/ChessMovesManager.ts:117-131 | The older King step test equals the current one |
| LegacyMovesManager.LegacyFreeAroundKingAgrees | src/services/ChessMovesManager.ts:117-131 | The older King callback gives the current one's answer |
| LegacyMovesManager.LegacyCanMoveFromAgrees | src/services/ChessMovesManager.ts:103-166 | The older `canMoveFromCell` agrees with the current one on every board and cell |
| LegacyMovesManager.LegacyKingMoveHasSafeStep | src/services/ChessMovesManager.ts:117-131 | A King the older test accepts has a safe adjacent step |
| LegacyMovesManager.LegacySafeStepLetsKingMove | src/services/ChessMovesManager.ts:117-131 | A safe adjacent step makes the older test true |
| LegacyMovesManager.LegacyKingMoveIff | src/services/ChessMovesManager.ts:103-166 | The older test accepts a King exactly when it has a safe step |
| LegacyMovesManager.LegacyRaySameFigures | src/services/ChessMovesManager.ts:603-638 | The older ray depends on the figures only |
| LegacyMovesManager.LegacyLinesSameFigures | src/services/ChessMovesManager.ts:652-687 | The older lines depend on the figures only |
| LegacyMovesManager.EnemyReachesSameFigures | src/services/ChessMovesManager.ts:179-343 | `doEnemyReachesSpecialCell` depends on the figures only |
| LegacyMovesManager.ChessMovesManager.constructor | src/services/ChessMovesManager.ts:12-31 | The older move generator works on the board it is given |
| LegacyMovesManager.ChessMovesManager.ProcessRay | src/services/ChessMovesManager.ts:603-638 | The loop yields exactly the older ray |
| LegacyMovesManager.ChessMovesManager.ProcessLines | src/services/ChessMovesManager.ts:652-687 | The loops yield exactly the older rays in order |
| LegacyMovesManager.ChessMovesManager.ProcessOffsetSteps | src/services/ChessMovesManager.ts:444-467 | The Knight and King loops yield the passable on-board squares in offset order |
| LegacyMovesManager.ChessMovesManager.ProcessPawnSteps | src/services/ChessMovesManager.ts:518-589 | The older pawn traversal is the current one |
| LegacyMovesManager.ChessMovesManager.ProcessPawnPushes | src/services/ChessMovesManager.ts:528-557 | The older forward checks yield the pushes, with the unguarded read's error |
| LegacyMovesManager.ChessMovesManager.ProcessPawnCaptures | src/services/ChessMovesManager.ts:559-588 | The older capture checks yield the capturable squares |
| LegacyMovesManager.ChessMovesManager.ProcessFigureSteps | src/services/ChessMovesManager.ts:144-162 | The older dispatch yields the figure's traversal |
| LegacyMovesManager.ChessMovesManager.FindHolding | src/services/ChessMovesManager.ts:192-214 | A search callback stops with true exactly when a visited square holds an enemy of the searched kinds |
| LegacyMovesManager.ChessMovesManager.DoEnemyReachesSpecialCell | src/services/ChessMovesManager.ts:179-343 | The answer is the specified test, whose meaning `EnemyReachesIff` gives |
| LegacyMovesManager.ChessMovesManager.CanMoveFromCell | src/services/ChessMovesManager.ts:103-166 | The flag is the older movability test |
| LegacyMovesManager.ChessMovesManager.FindSafeAroundKing | src/services/ChessMovesManager.ts:117-131 | The King's callback is true exactly when some visited square is a safe step |
| LegacyMovesManager.ChessMovesManager.FindNonTeammate | src/services/ChessMovesManager.ts:136-142 | The callback is true exactly when some visited square holds no teammate |
| LegacyMovesManager.ChessMovesManager.FindKingCell | src/services/ChessMovesManager.ts:350-371 | The older scan returns the first King of the colour in row-major order, or fails |
| LegacyMovesManager.ChessMovesManager.SetOnMoveAction | src/services/ChessMovesManager.ts:40-94 | The board changes as `LegacyInstallMove` says, or not at all when it throws |
| LegacyMovesManager.ChessMovesManager.RunMoveAction | src/services/ChessMovesManager.ts:78-93 | The installed closure relocates the figure |
| LegacyBoardFactory.LegacyNewBoardCells | src/services/ChessboardFactory.ts:19-27 | The older start position is a well-formed 8 x 8 board |
| LegacyBoardFactory.GetClearBoard | src/services/ChessboardFactory.ts:33-56 | A fresh board holding the clear board |
| LegacyBoardFactory.FillWithWhiteFigures | src/services/ChessboardFactory.ts:62-86 | White pawns on row 6, the back rank on row 7 |
| LegacyBoardFactory.FillWithBlackFigures | src/services/ChessboardFactory.ts:92-116 | Black pawns on row 1, the back rank on row 0 |
| LegacyBoardFactory.GetNewBoard | src/services/ChessboardFactory.ts:19-27 | A fresh board holding the older start position |
| LegacyBoardFactory.LegacyNewBoardIsNewBoard | src/services/ChessboardFactory.ts:19-27 | Filling White before Black gives the same start position as the current order |
| LegacyBoardFactory.LegacyNewBoardOneKing | src/services/ChessboardFactory.ts:19-27 | Each colour's figures stand on its home rows, with one King per colour in column 3 |
| LegacyBoardManager.LegacyCancel | src/services/ChessboardManager.ts:372-375 | The older `cancelSelect` keeps the invariant |
| LegacyBoardManager.LegacyInstallMoves | src/services/ChessboardManager.ts:327-338 | The older callback changes no figure and keeps installed moves on the board |
| LegacyBoardManager.LegacyNextGameState | src/services/ChessboardManager.ts:228-279 | The older classification throws "King not found" exactly when the side has no King, throws nothing but that and the last-figures error, and never answers Default |
| LegacyBoardManager.LegacySelectCellOutcome | src/services/ChessboardManager.ts:314-367 | The older `selectCell` keeps the invariant; `LegacyProperties.LegacySelectCellExact` states the resulting state |
| LegacyBoardManager.LegacySwitchPlayerOutcome | src/services/ChessboardManager.ts:197-217 | The older `switchPlayer` keeps the invariant; `LegacyProperties.LegacySwitchPlayerFlips` states the resulting state |
| LegacyBoardManager.LegacyRunActionOutcome | src/services/ChessMovesManager.ts:78-93 | Running a cell's action keeps the invariant; `LegacyProperties.LegacyRunActionMoves` states the move it plays |
| LegacyBoardManager.LegacyPlayOutcome | src/services/ChessboardManager.ts:103-113 | Playing a move, then cancelling or selecting the King, keeps the invariant; `LegacyProperties.LegacyPlayMoves`, `LegacyPlayCheckSelectsKing` and `LegacyPlayAsWritten` state its outcome |
| LegacyBoardManager.LegacyClickDefaultWhileSelected | src/services/ChessboardManager.ts:80-95 | A click on a Default cell while selected keeps the invariant; `LegacyProperties.LegacyClickElsewhereCancels` states its outcome |
| LegacyBoardManager.LegacyClickWhileIdle | src/services/ChessboardManager.ts:118-137 | A click with nothing selected keeps the invariant; `LegacyProperties.LegacyIdleClickSelectsOwnFigure` and `LegacyGameOverIgnoresClicks` state its outcome |
| LegacyBoardManager.LegacyOnActionOutcome | src/services/ChessboardManager.ts:74-140 | The older `onAction` keeps the invariant; `LegacyProperties.LegacyMoveClickPlays` and the click lemmas state its outcome case by case |
| LegacyBoardManager.ChessboardManager.constructor | src/services/ChessboardManager.ts:43-67 | A fresh move generator, every cell reset, White to move in state Default, nothing selected |
| LegacyBoardManager.ChessboardManager.SetNewChessboard | src/services/ChessboardManager.ts:145-160 | A new board and generator, every cell reset, the game information back to its start, the selection flag and the selected coordinate untouched (the program keeps the old board's cell object; see Left out) |
| LegacyBoardManager.ChessboardManager.SetDefaultCellsState | src/services/ChessboardManager.ts:165-177 | The nested loops reset every cell |
| LegacyBoardManager.ChessboardManager.CancelSelect | src/services/ChessboardManager.ts:372-375 | The new state is `LegacyCancel` of the old one |
| LegacyBoardManager.ChessboardManager.GetOneTeamCells | src/services/ChessboardManager.ts:288-308 | The nested loops return the team's cells in row-major order |
| LegacyBoardManager.ChessboardManager.FindMovable | src/services/ChessboardManager.ts:270-276 | The loop finds whether some listed figure can move by the older test |
| LegacyBoardManager.ChessboardManager.GetNextGameState | src/services/ChessboardManager.ts:228-279 | The state and error are the older classification's, and nothing is recorded |
| LegacyBoardManager.ChessboardManager.ClassifyCheck | src/services/ChessboardManager.ts:235-252 | The attacked-King branch gives Check or Checkmate as specified |
| LegacyBoardManager.ChessboardManager.ClassifyQuiet | src/services/ChessboardManager.ts:254-278 | The quiet branch gives Draw, InProcess or Mate, or the last-figures error |
| LegacyBoardManager.ChessboardManager.SwitchPlayer | src/services/ChessboardManager.ts:197-217 | The new state is `LegacySwitchPlayerOutcome` of the old one |
| LegacyBoardManager.ChessboardManager.SelectCell | src/services/ChessboardManager.ts:314-367 | The new state and error are `LegacySelectCellOutcome` of the old state |
| LegacyBoardManager.ChessboardManager.InstallAlong | src/services/ChessboardManager.ts:327-338 | The callback on each walked square in turn gives `LegacyInstallMoves` and its error |
| LegacyBoardManager.ChessboardManager.RunAction | src/services/ChessMovesManager.ts:78-93 | The new state is `LegacyRunActionOutcome` of the old one |
| LegacyBoardManager.ChessboardManager.OnAction | src/services/ChessboardManager.ts:74-140 | The new state and error are `LegacyOnActionOutcome` of the old state |
| LegacyProperties.LegacySomeCanMoveAgrees | src/services/ChessboardManager.ts:270-276 | The older loop over the team's figures answers as the current one does |
| LegacyProperties.LegacyNextGameStateAgrees | src/services/ChessboardManager.ts:228-279 | The older classification gives the current one's state and error, with no priority target |
| LegacyProperties.LegacyCheckStateAgrees | src/services/ChessboardManager.ts:235-252 | The attacked-King branches of both revisions agree |
| LegacyProperties.LegacyQuietStateAgrees | src/services/ChessboardManager.ts:254-278 | The quiet branches of both revisions agree |
| LegacyProperties.LegacyAttackedKingVerdict | src/services/ChessboardManager.ts:235-252 | An attacked King: no error, and Checkmate exactly when it cannot move and no ally reaches the first attacker; Check otherwise |
| LegacyProperties.LegacyMateIff | src/services/ChessboardManager.ts:254-278 | A quiet position that is not down to last figures never throws, and is Mate exactly when no figure of the side can move |
| LegacyProperties.Lifted | src/services/ChessboardManager.ts:43-67 | An older state corresponds to a current one with no priority target |
| LegacyProperties.LegacySwitchPlayerAgrees | src/services/ChessboardManager.ts:197-217 | The older and the current `switchPlayer` leave the same board, selection, side and state, with the same error |
| LegacyProperties.LegacySwitchPlayerFlips | src/services/ChessboardManager.ts:197-217 | The other side is to move; state and error are the classification's; a terminal state resets every cell; selection and figures stay |
| LegacyProperties.KingVetoedSameFigures | src/services/ChessMovesManager.ts:53-61 | The older King veto depends on the figures only |
| LegacyProperties.LegacyInstallMovesAt | src/services/ChessboardManager.ts:327-338 | Seen from one square: when nothing throws, it gets the move exactly when the walk visits it and the King veto lets it through |
| LegacyProperties.LegacyInstallMovesFault | src/services/ChessboardManager.ts:327-338 | The older callback throws exactly when a walked square holds a teammate, with the teammate error |
| LegacyProperties.LegacySelectCellExact | src/services/ChessboardManager.ts:314-367 | A cell that is not Default and an empty cell are refused with no change; otherwise the only error is the walk's, the cell becomes Active and selected, and exactly the walked squares the King veto lets through get the move |
| LegacyProperties.LegacySelectInstallsAll | src/services/ChessboardManager.ts:327-338 | A figure's walk holds no teammate, so installing along it never throws |
| LegacyProperties.LegacySelectMarks | src/services/ChessboardManager.ts:314-367 | After installation the selected cell is Active and the allowed walked squares hold their move |
| LegacyProperties.LegacyIdleClickSelectsOwnFigure | src/services/ChessboardManager.ts:118-137 | With nothing selected, only a Default cell of the side to move is selected: any figure in Default or InProcess, only the King in Check |
| LegacyProperties.LegacyPlayAsWritten | src/services/ChessboardManager.ts:103-113 | A click on a cell whose action is still the empty closure moves nothing and keeps the game information; outside Check the selection is cancelled, in Check the side to move gets its own King selected, or "King not found" without one |
| LegacyProperties.LegacyGameOverIgnoresClicks | src/services/ChessboardManager.ts:118-137 | After Mate, Checkmate or Draw, with nothing selected, a click changes nothing |
| LegacyProperties.LegacyClickElsewhereCancels | src/services/ChessboardManager.ts:80-100 | A click on the selected cell, on any Default cell in Check, or on a Default non-teammate cell cancels and resets every cell |
| MovesManager.FindKingSameFigures | src/services/chessboard/ChessMovesManager.ts:351-372 | `findKingCell` depends on the figures only |
| LegacyProperties.LegacyRunActionMoves | src/services/ChessMovesManager.ts:78-93 | A cell's action relocates the figure, then switches the player |
| LegacyProperties.LegacyPlayMoves | src/services/ChessboardManager.ts:103-113 | Playing a move relocates the figure, hands over the turn, and takes the classification's state and error |
| LegacyProperties.LegacyPlayCheckSelectsKing | src/services/ChessboardManager.ts:103-113 | A move that leaves the other side in Check selects that side's King at once |
| LegacyProperties.LegacyCheckKingReady | src/services/ChessboardManager.ts:103-113 | After a switch into Check and a cancel, the King of the side to move stands on a Default cell where `findKingCell` finds it |
| LegacyProperties.LegacySwitchToCheck | src/services/ChessboardManager.ts:197-217 | A switch into a plain Check only hands over the move and records Check |
| LegacyProperties.LegacyVerdictHasKing | src/services/ChessboardManager.ts:228-233 | A classification without an error had a King to find |
| LegacyProperties.CancelKeepsKing | src/services/ChessboardManager.ts:372-375 | Cancelling keeps the King where `findKingCell` finds it, on a Default cell |
| LegacyProperties.LegacyPlayQuietCancels | src/services/ChessboardManager.ts:103-113 | A move that does not give Check leaves nothing selected and every cell reset |
| LegacyProperties.LegacyMoveClickPlays | src/services/ChessboardManager.ts:103-113 | A click on an OnWay or Target cell while selected plays its move |
| LegacyProperties.LegacyKingSelectable | src/services/ChessboardManager.ts:314-367 | Selecting a King on a Default cell never fails, and selects it without changing figures or game information |
| EndgameScenarios.PlacedNothingIsClear | __tests__/endgameChecking.ts:18-43 | The tests' stand-in for `getNewBoard` builds the factory's clear board |
| EndgameScenarios.RelocatePlaced | src/services/chessboard/ChessMovesManager.ts:99-114 | Moving a non-Pawn figure to an empty square moves its entry in the map of placed figures |
| EndgameScenarios.StraightCheckVerdict | src/services/chessboard/ChessboardManager.ts:246-264 | A King checked along a straight line by its only attacker gets that attacker as target |
| EndgameScenarios.KingStuck | src/services/chessboard/ChessMovesManager.ts:138-156 | A King whose every neighbouring square is covered cannot move |
| EndgameScenarios.KingFree | src/services/chessboard/ChessMovesManager.ts:138-156 | A King with an uncovered empty or hostile neighbouring square can move |
| EndgameScenarios.CheckmateVerdict | src/services/chessboard/ChessboardManager.ts:246-264 | A checked King that cannot move and whose allies do not reach the attacker is Checkmate, with the attacker as target |
| EndgameScenarios.CheckVerdictOf | src/services/chessboard/ChessboardManager.ts:246-264 | A checked King that can move, or whose allies reach the attacker, is Check, with the attacker as target |
| EndgameScenarios.AllyCheckVerdict | src/services/chessboard/ChessboardManager.ts:246-264 | A checked King whose ally reaches the attacker along a clear line is Check |
| EndgameScenarios.QuietMate | src/services/chessboard/ChessboardManager.ts:266-293 | A safe King on a board where no figure of its side can move is Mate, with no target |
| EndgameScenarios.QuietInProcess | src/services/chessboard/ChessboardManager.ts:266-293 | A safe King on a board where some figure of its side can move is InProcess, with no target |
| EndgameScenarios.PlacedQuietMate | src/services/chessboard/ChessboardManager.ts:266-293 | A placed quiet layout whose King is stuck is Mate |
| EndgameScenarios.PlacedQuietInProcess | src/services/chessboard/ChessboardManager.ts:266-293 | A placed quiet layout whose King can move is InProcess |
| EndgameScenarios.Checkmate1 | __tests__/endgameChecking.ts:47-67 | After the Rook's move from (1,2) to (0,2), Black is checkmated and the Rook is the priority target |
| EndgameScenarios.Checkmate1Verdict | __tests__/endgameChecking.ts:47-67 | Any board holding the position after the move gets that verdict |
| EndgameScenarios.Checkmate2 | __tests__/endgameChecking.ts:72-95 | After the Rook's move from (1,2) to (0,2), next to the King but protected, Black is checkmated |
| EndgameScenarios.Checkmate2Verdict | __tests__/endgameChecking.ts:72-95 | Any board holding the position after the move gets that verdict |
| EndgameScenarios.Checkmate3 | __tests__/endgameChecking.ts:99-119 | After the Rook's move from (1,4) to (0,4), Black is checkmated |
| EndgameScenarios.Checkmate3Verdict | __tests__/endgameChecking.ts:99-119 | Any board holding the position after the move gets that verdict |
| EndgameScenarios.Check1 | __tests__/endgameChecking.ts:122-142 | After the Rook's move from (2,2) to (2,1), Black is in Check, since its King can step aside |
| EndgameScenarios.Check1Verdict | __tests__/endgameChecking.ts:122-142 | Any board holding the position after the move gets that verdict |
| EndgameScenarios.Check2 | __tests__/endgameChecking.ts:145-165 | After the Rook's move from (2,1) to (0,1), Black is in Check, since its King can take the unprotected Rook |
| EndgameScenarios.Check2Verdict | __tests__/endgameChecking.ts:145-165 | Any board holding the position after the move gets that verdict |
| EndgameScenarios.Check3 | __tests__/endgameChecking.ts:169-192 | After the Rook's move from (1,4) to (0,4), Black is in Check, since its own Rook can take the attacker |
| EndgameScenarios.Check3Verdict | __tests__/endgameChecking.ts:169-192 | Any board holding the position after the move gets that verdict |
| EndgameScenarios.Mate1 | __tests__/endgameChecking.ts:195-215 | After the Rook's move from (2,2) to (2,1), Black is not attacked and cannot move: Mate, with no target |
| EndgameScenarios.Mate1Verdict | __tests__/endgameChecking.ts:195-215 | Any board holding the position after the move gets that verdict |
| EndgameScenarios.InProcess1 | __tests__/endgameChecking.ts:218-241 | After the Bishop's move from (1,3) to (0,2), Black is not attacked and can move: InProcess, with no target |
| EndgameScenarios.InProcess1Verdict | __tests__/endgameChecking.ts:218-241 | Any board holding the position after the move gets that verdict |

## Left out

- User-interface hooks are not modelled: `updateAllCellComponentsStates`, the
  cells' `updateCellComponentStates`, `onSwitchPlayerCallback`,
  `onGameEndCallback`, and the `preMoveAction`/`postMoveAction` options beyond
  the `switchPlayer` hook. They only refresh or notify the view.
- Null and `undefined` argument checks are not modelled: the constructors,
  `setChessboard`, `setNewChessboard` and `getReachingEnemyCells` throw on a
  missing argument. Every Dafny reference and value is present, so these
  throws cannot happen. The same holds for the falsy-colour guards on `Colors`.
- The `cells` getter's throw for a missing board and `getOneTeamCells`'s throw
  for an unknown colour cannot happen either, for the same reason.
- The `default: throw new Error('Unknown …')` branches of the switches on
  `FigureNames` and `CellStatus` are left out. The model's enumerations are
  closed, so these branches are unreachable.
- Cells are values, not shared objects. The program hands the same `ICell`
  object to several callers, and the model has no aliasing. On one board each
  coordinate holds one cell, so there a cell's identity is its coordinates;
  this stops holding across a board swap (next two lines).
- BoardManager.ChessboardManager.SetNewChessboard: keeps `selected` and
  `lastSelectedCell` as the program does (src/services/chessboard/ChessboardManager.ts:156-172),
  but the model's `lastSelectedCell` is a coordinate, read on the new board,
  where the program keeps the old board's `ICell` object with its old figure.
  After a restart with a figure selected, the next click on a Default cell
  asks `isTeammates(prevCell, cell)` (lines 84-103) about that old figure; the
  model asks about whatever the new board holds at that coordinate. The two
  can differ: White selects a pawn it has moved to (4,4), restarts, then
  clicks the White pawn at (6,0); the program finds the old pawn a teammate
  and selects (6,0), while the model finds (4,4) empty and cancels. The model
  does not capture this stale selection.
- LegacyBoardManager.ChessboardManager.SetNewChessboard: the same difference
  for the older revision (src/services/ChessboardManager.ts:145-160, the
  teammate test at lines 80-95).
- The board is fixed at 8 x 8, as the factories build it. The older
  `src/models/Chessboard.ts` declares a constructor that builds a 12 x 12
  matrix of argument-less cells; it is not part of this model, whose boards
  are the factories' 8 x 8 matrices. The older move generator bounds its
  rays with `this.chessboard.size`, which that older `Chessboard` does not
  define; the model takes the size from the current `Chessboard`, whose
  `size` getter is `cells.length`, that is 8.
- `specificFill` of the current factory is not modelled. Nothing calls it.
- The older factory's `setDefaultActions` is not modelled. It writes an
  `onAction` field that nothing reads.
- The older revision has one action slot in this model. Its `setOnMoveAction`
  stores the move closure in `to.onAction`, while the older `onAction` runs
  `cell.action()`, which `setDefaultCellsState` set to an empty closure. The
  model stores the move in the cell's only action slot. As written, a click on
  an OnWay or Target cell in the older revision plays nothing.
  LegacyProperties.LegacyPlayAsWritten states that behaviour for a cell whose
  action is still the empty closure: no figure moves, the game information
  stays, the selection is cancelled, and in Check the side to move gets its
  own King selected. The rest of the legacy model assumes the move is played,
  as the current revision does.
- The older manager calls `getReachingEnemyCells` and the
  `processFor*Patterns` methods, which exist only in the current move
  generator. The model uses the current definitions there. `findKingCell`,
  `canMoveFromCell`, `isTeammates` and `setOnMoveAction` come from the older
  move generator.
- The current manager calls `getBeatingEnemyCells` and
  `processForInCellFigurePattern`, which no revision defines. The model reads
  them as `getReachingEnemyCells` and `processForCellsFigurePattern`.
- MovesManager.PatternWalk: the Queen's traversal is the straight rays followed
  by the diagonal rays. In the program, a `false` from the callback during the
  straight rays does not stop the diagonal ones. The model's consumers all
  either only set flags to true or never return `false`, so the result is the
  same.
- BoardManager.SelectCellOutcome: the walk is computed first, and the
  installation is applied to it afterwards. In the program, the callback runs
  while the traversal is going on. The traversal reads figures only and the
  callback writes statuses and actions only, so the order does not matter.
- LegacyMovesManager.EnemyReaches: `doEnemyReachesSpecialCell` stops at its
  first hit. The model states only the boolean answer, not which search
  found it.
- The end-of-game tests drive the game through `onAction` on the moving piece
  and `cells[r][c].action()`. EndgameScenarios starts from the board after
  `Relocate` instead. ManagerProperties.IdleClickThenMove links the two for
  any non-King figure and any square of its walk, in Default or InProcess
  with no priority target, as in the tests: the first click selects the
  figure and installs the move, and running that square's action gives the
  figures of the relocated board, the other side to move and `NextGameState` of the
  relocated board. `MoveClickPlays` and `LegacyMoveClickPlays` state that a
  click plays exactly that move. The tests' mocked `getNewBoard` is
  `Placed(map[])`, which `PlacedNothingIsClear` shows is the clear board.
- Rendering, the Redux store, the React components, image lookup and error
  boundaries are outside the rules engine and are not modelled.
