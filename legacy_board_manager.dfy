/**
 * The click-driven state machine of the older revision
 * (src/services/ChessboardManager.ts).
 *
 * It differs from the current one in four ways: there is no priority target;
 * `selectCell` installs a move on every square of the figure's walk, leaving
 * the vetting of King moves to the older `setOnMoveAction`; a click on a
 * teammate while in Check cancels instead of switching; and after a move that
 * gives check, the King of the side now to move is selected at once.
 *
 * This manager asks its move generator for `getReachingEnemyCells` and the
 * `processFor*Patterns` traversals, which only the current move generator
 * defines; they stand here as `ReachingEnemyCells` and `PatternWalk` with no
 * ignored cell. The rest (`findKingCell`, `canMoveFromCell`, `isTeammates`,
 * `setOnMoveAction`) is the older move generator's.
 */
module LegacyBoardManager {
  import opened ChessModel
  import opened MovesManager
  import opened BoardManager
  import LegacyMovesManager

  /** The older `IChessGameInfo`: the side to move and the game state. */
  datatype LegacyInfo = LegacyInfo(currentTeamColor: Color, gameState: ChessGameStates)

  /** Everything the older manager's methods read and write. */
  datatype LegacyState = LegacyState(cells: Grid, selected: bool, lastSelectedCell: Option<Pos>, gameInfo: LegacyInfo)

  /** The state a method leaves, and the error it throws, if any. */
  datatype LegacyOutcome = LegacyOutcome(state: LegacyState, fault: Option<Fault>)

  /** White to move, state Default. */
  const LegacyStartInfo: LegacyInfo := LegacyInfo(White, ChessGameStates.Default)

  /** An 8 x 8 board whose installed moves stay on it, and a remembered cell on it. */
  ghost predicate LegacySane(s: LegacyState) {
    WellFormed(s.cells) && ActionsOnBoard(s.cells) && OnBoard(s.lastSelectedCell)
  }

  /** `cancelSelect`: no selection, every cell Default with no action. */
  function LegacyCancel(s: LegacyState): (r: LegacyState)
    requires LegacySane(s)
    ensures LegacySane(r)
  {
    s.(selected := false, cells := ResetCells(s.cells))
  }

  // ---------------------------------------------------------------------------
  // Selecting a cell
  // ---------------------------------------------------------------------------

  /**
   * The older `selectCell`'s callback on the squares of the walk in order: the
   * older `setOnMoveAction` on each; the first that throws stops the walk.
   */
  function LegacyInstallMoves(g: Grid, from: Pos, squares: seq<Pos>): (r: Installed)
    requires WellFormed(g) && InBounds(from) && AllInBounds(squares)
    ensures WellFormed(r.cells) && SameFigures(r.cells, g)
    ensures ActionsOnBoard(g) ==> ActionsOnBoard(r.cells)
    decreases |squares|
  {
    if squares == [] then Installed(g, None)
    else
      match LegacyMovesManager.LegacyInstallMove(g, from, squares[0])
      case Err(f) => Installed(g, Some(f))
      case Ok(g1) => LegacyInstallMoves(g1, from, squares[1..])
  }

  /**
   * The older `selectCell`: refuses a cell that is not Default or holds no figure;
   * marks the cell Active; walks the figure's pattern against the other colour,
   * installing a move on every square; then records the selection. A throw from
   * `setOnMoveAction` or from the pawn walk leaves the moves installed so far.
   */
  function LegacySelectCellOutcome(s: LegacyState, p: Pos): (r: LegacyOutcome)
    requires LegacySane(s) && InBounds(p)
    ensures LegacySane(r.state)
  {
    var c := At(s.cells, p);
    if c.status != CellStatus.Default then LegacyOutcome(s, Some(NotDefaultStatus))
    else if c.figure.None? then LegacyOutcome(s, Some(MissingFigure))
    else
      var g1 := SetStatus(s.cells, p, Active, c.action);
      var w := PatternWalk(g1, p, Opponent(c.figure.value.color), None);
      var inst := LegacyInstallMoves(g1, p, w.squares);
      if inst.fault.Some? then LegacyOutcome(s.(cells := inst.cells), inst.fault)
      else if w.fault.Some? then LegacyOutcome(s.(cells := inst.cells), w.fault)
      else LegacyOutcome(s.(cells := inst.cells, selected := true, lastSelectedCell := Some(p)), None)
  }

  // ---------------------------------------------------------------------------
  // The game state
  // ---------------------------------------------------------------------------

  /** The result of the older `getNextGameState`: a state, or the error it throws. */
  datatype LegacyVerdict = LegacyVerdict(state: ChessGameStates, fault: Option<Fault>)

  /** Some figure on `ps` can move, by the older `canMoveFromCell`. */
  predicate LegacySomeCanMove(g: Grid, ps: seq<Pos>)
    requires WellFormed(g) && AllInBounds(ps)
    decreases |ps|
  {
    ps != [] && (LegacyMovesManager.LegacyCanMoveFrom(g, ps[0]) || LegacySomeCanMove(g, ps[1..]))
  }

  /**
   * The older `getNextGameState` for the side `team`. No King: error. King
   * attacked: Check if the King can move or an ally (the King ignored) reaches the
   * first attacker, Checkmate otherwise. King safe: one figure per side gives Draw
   * (an error unless both are Kings); otherwise InProcess if some figure of `team`
   * can move, Mate if none can.
   */
  function LegacyNextGameState(g: Grid, team: Color): (v: LegacyVerdict)
    requires WellFormed(g)
    ensures v.fault == Some(MissingKing) <==> FindKing(g, team).None?
    ensures v.fault.None? || v.fault == Some(MissingKing) || v.fault == Some(NonKingLastFigures)
    ensures v.fault.None? ==> v.state != ChessGameStates.Default
  {
    match FindKing(g, team)
    case None => LegacyVerdict(ChessGameStates.Default, Some(MissingKing))
    case Some(k) =>
      var enemy := if At(g, k).figure.value.color == White then Black else White;
      var reaching := ReachingEnemyCells(g, k, enemy, None);
      if reaching != [] then LegacyVerdict(LegacyCheckState(g, team, k, reaching[0]), None)
      else
        LegacyQuietFaultless(g, team, enemy);
        LegacyVerdict(LegacyQuietState(g, team, enemy), QuietFault(g, team, enemy))
  }

  /** The quiet branch throws only for last figures that are not both Kings, and otherwise never leaves Default. */
  lemma LegacyQuietFaultless(g: Grid, team: Color, enemy: Color)
    requires WellFormed(g)
    ensures QuietFault(g, team, enemy).None? || QuietFault(g, team, enemy) == Some(NonKingLastFigures)
    ensures QuietFault(g, team, enemy).None? ==> LegacyQuietState(g, team, enemy) != ChessGameStates.Default
  {
  }

  /** The attacked King at `k` can move, or an ally reaches `attacker` with `k` ignored: Check; Checkmate otherwise. */
  function LegacyCheckState(g: Grid, team: Color, k: Pos, attacker: Pos): (r: ChessGameStates)
    requires WellFormed(g) && InBounds(k) && InBounds(attacker)
    ensures r == Check || r == Checkmate
  {
    if LegacyMovesManager.LegacyCanMoveFrom(g, k) || ReachingEnemyCells(g, attacker, team, Some(k)) != [] then Check
    else Checkmate
  }

  /** The state when the King of `team` is safe. */
  function LegacyQuietState(g: Grid, team: Color, enemy: Color): ChessGameStates
    requires WellFormed(g)
  {
    if LastFigures(g, team, enemy) then
      if KingAt(g, TeamCells(g, team)[0]) && KingAt(g, TeamCells(g, enemy)[0]) then Draw else ChessGameStates.Default
    else if LegacySomeCanMove(g, TeamCells(g, team)) then InProcess
    else Mate
  }

  /**
   * The older `switchPlayer`: the other side is to move, its state is computed,
   * and a terminal state resets every cell. A throw of `getNextGameState` leaves
   * the side switched and the state unchanged.
   */
  function LegacySwitchPlayerOutcome(s: LegacyState): (r: LegacyOutcome)
    requires LegacySane(s)
    ensures LegacySane(r.state)
  {
    var team := if s.gameInfo.currentTeamColor == White then Black else White;
    var v := LegacyNextGameState(s.cells, team);
    var s1 := s.(gameInfo := s.gameInfo.(currentTeamColor := team));
    if v.fault.Some? then LegacyOutcome(s1, v.fault)
    else
      var s2 := s1.(gameInfo := s1.gameInfo.(gameState := v.state));
      if IsTerminal(v.state) then LegacyOutcome(s2.(cells := ResetCells(s2.cells)), None)
      else LegacyOutcome(s2, None)
  }

  /** The action of the cell at `p`: the installed move, then `switchPlayer` as its post-move hook. */
  function LegacyRunActionOutcome(s: LegacyState, p: Pos): (r: LegacyOutcome)
    requires LegacySane(s) && InBounds(p)
    ensures LegacySane(r.state)
  {
    match At(s.cells, p).action
    case NoAction => LegacyOutcome(s, None)
    case MoveAction(from, to) =>
      RelocateKeepsActions(s.cells, from, to);
      LegacySwitchPlayerOutcome(s.(cells := Relocate(s.cells, from, to)))
  }

  // ---------------------------------------------------------------------------
  // A click
  // ---------------------------------------------------------------------------

  /**
   * A click on an OnWay or Target cell: the action runs and the selection is
   * cancelled; if the side now to move is in Check, its King is selected. A throw
   * in the action skips the rest.
   */
  function LegacyPlayOutcome(s: LegacyState, p: Pos): (r: LegacyOutcome)
    requires LegacySane(s) && InBounds(p)
    ensures LegacySane(r.state)
  {
    var o := LegacyRunActionOutcome(s, p);
    if o.fault.Some? then o
    else
      var s1 := LegacyCancel(o.state);
      if s1.gameInfo.gameState != Check then LegacyOutcome(s1, None)
      else
        match FindKing(s1.cells, s1.gameInfo.currentTeamColor)
        case None => LegacyOutcome(s1, Some(MissingKing))
        case Some(k) => LegacySelectCellOutcome(s1, k)
  }

  /**
   * A click on a Default cell while a cell is selected: the cells are reset; out of
   * Check a teammate of the selected figure becomes selected instead; anything
   * else cancels.
   */
  function LegacyClickDefaultWhileSelected(s: LegacyState, p: Pos): (r: LegacyOutcome)
    requires LegacySane(s) && InBounds(p)
    ensures LegacySane(r.state)
  {
    var s1 := s.(cells := ResetCells(s.cells));
    var prev := s.lastSelectedCell;
    if s.gameInfo.gameState != Check && prev.Some? && IsTeammates(At(s1.cells, prev.value), At(s1.cells, p))
    then LegacySelectCellOutcome(s1, p)
    else LegacyOutcome(LegacyCancel(s1), None)
  }

  /** The figure at `p` belongs to the side to move and its cell is Default. */
  predicate LegacyIsCurrentTeamCell(s: LegacyState, p: Pos)
    requires LegacySane(s) && InBounds(p)
  {
    var c := At(s.cells, p);
    c.figure.Some? && c.status == CellStatus.Default && c.figure.value.color == s.gameInfo.currentTeamColor
  }

  /**
   * A click with nothing selected: a Default cell of the side to move is selected
   * in the states Default and InProcess, and in Check when it holds the King.
   */
  function LegacyClickWhileIdle(s: LegacyState, p: Pos): (r: LegacyOutcome)
    requires LegacySane(s) && InBounds(p)
    ensures LegacySane(r.state)
  {
    if !LegacyIsCurrentTeamCell(s, p) then LegacyOutcome(s, None)
    else
      var state := s.gameInfo.gameState;
      if state == ChessGameStates.Default || state == InProcess then LegacySelectCellOutcome(s, p)
      else if state == Check && KingAt(s.cells, p) then LegacySelectCellOutcome(s, p)
      else LegacyOutcome(s, None)
  }

  /** The older `onAction`: the click on the cell at `p`. */
  function LegacyOnActionOutcome(s: LegacyState, p: Pos): (r: LegacyOutcome)
    requires LegacySane(s) && InBounds(p)
    ensures LegacySane(r.state)
  {
    if !s.selected then LegacyClickWhileIdle(s, p)
    else
      match At(s.cells, p).status
      case Default => LegacyClickDefaultWhileSelected(s, p)
      case Active => LegacyOutcome(LegacyCancel(s), None)
      case OnWay => LegacyPlayOutcome(s, p)
      case Target => LegacyPlayOutcome(s, p)
  }

  // ---------------------------------------------------------------------------
  // The class
  // ---------------------------------------------------------------------------

  class ChessboardManager {
    var chessboard: Chessboard
    var movesManager: LegacyMovesManager.ChessMovesManager
    var selected: bool
    var lastSelectedCell: Option<Pos>
    var gameInfo: LegacyInfo

    function Snapshot(): LegacyState
      reads this, chessboard
    {
      LegacyState(chessboard.cells, selected, lastSelectedCell, gameInfo)
    }

    /** The move generator works on the manager's own board, and the state is sane. */
    ghost predicate Valid()
      reads this, chessboard, movesManager
    {
      movesManager.chessboard == chessboard && LegacySane(Snapshot())
    }

    /** The constructor: a fresh move generator, White to move, every cell reset. */
    constructor (board: Chessboard)
      requires WellFormed(board.cells)
      modifies board
      ensures Valid() && chessboard == board && fresh(movesManager)
      ensures board.cells == ResetCells(old(board.cells))
      ensures !selected && lastSelectedCell == None && gameInfo == LegacyStartInfo
    {
      chessboard := board;
      movesManager := new LegacyMovesManager.ChessMovesManager(board);
      selected := false;
      lastSelectedCell := None;
      gameInfo := LegacyStartInfo;
      new;
      SetDefaultCellsState();
    }

    /** `setNewChessboard`: as the constructor, but the selection is left as it was. */
    method SetNewChessboard(board: Chessboard) returns (cells: Grid)
      requires Valid() && WellFormed(board.cells)
      modifies this, board
      ensures Valid() && chessboard == board && fresh(movesManager)
      ensures board.cells == ResetCells(old(board.cells)) && cells == board.cells
      ensures selected == old(selected) && lastSelectedCell == old(lastSelectedCell) && gameInfo == LegacyStartInfo
    {
      chessboard := board;
      movesManager := new LegacyMovesManager.ChessMovesManager(board);
      gameInfo := LegacyStartInfo;
      SetDefaultCellsState();
      cells := chessboard.cells;
    }

    /** `setDefaultCellsState`: the nested loops resetting every cell's status and action. */
    method SetDefaultCellsState()
      requires WellFormed(chessboard.cells)
      modifies chessboard
      ensures chessboard.cells == ResetCells(old(chessboard.cells))
    {
      ghost var g := chessboard.cells;
      for i := 0 to Size
        invariant WellFormed(chessboard.cells)
        invariant forall q | InBounds(q) :: At(chessboard.cells, q) == if q.row < i then ResetCell(At(g, q)) else At(g, q)
      {
        for j := 0 to Size
          invariant WellFormed(chessboard.cells)
          invariant forall q | InBounds(q) ::
            At(chessboard.cells, q) == if q.row < i || (q.row == i && q.col < j) then ResetCell(At(g, q)) else At(g, q)
        {
          chessboard.cells := SetStatus(chessboard.cells, Pos(i, j), CellStatus.Default, NoAction);
        }
      }
      GridExtensionality(chessboard.cells, ResetCells(g));
    }

    /** `cancelSelect`. */
    method CancelSelect()
      requires Valid()
      modifies this, chessboard
      ensures Valid() && chessboard == old(chessboard) && movesManager == old(movesManager)
      ensures Snapshot() == LegacyCancel(old(Snapshot()))
    {
      selected := false;
      SetDefaultCellsState();
    }

    /** `getOneTeamCells`: the nested loops pushing every cell that holds a figure of `teamColor`. */
    method GetOneTeamCells(teamColor: Color) returns (result: seq<Pos>)
      requires WellFormed(chessboard.cells)
      ensures result == TeamCells(chessboard.cells, teamColor)
    {
      var g := chessboard.cells;
      result := [];
      ghost var scanned := 0;
      for i := 0 to Size
        invariant scanned == i * Size
        invariant result == ScannedTeam(g, scanned, teamColor)
      {
        for j := 0 to Size
          invariant scanned == i * Size + j
          invariant result == ScannedTeam(g, scanned, teamColor)
        {
          TeamScanStep(g, scanned, i, j, teamColor);
          var cell := At(g, Pos(i, j));
          if cell.figure.Some? && cell.figure.value.color == teamColor {
            result := result + [Pos(i, j)];
          }
          scanned := scanned + 1;
        }
      }
    }

    /** The loop of `getNextGameState` asking the older `canMoveFromCell` of each figure in turn. */
    method FindMovable(cells: seq<Pos>) returns (found: bool)
      requires movesManager.chessboard == chessboard && WellFormed(chessboard.cells) && AllInBounds(cells)
      ensures found == LegacySomeCanMove(chessboard.cells, cells)
    {
      ghost var g := chessboard.cells;
      for i := 0 to |cells|
        invariant LegacySomeCanMove(g, cells[i..]) == LegacySomeCanMove(g, cells)
      {
        var canMove := movesManager.CanMoveFromCell(cells[i]);
        assert cells[i..][0] == cells[i] && cells[i..][1..] == cells[i + 1..];
        if canMove {
          return true;
        }
      }
      assert cells[|cells|..] == [];
      return false;
    }

    /** The older `getNextGameState`: it reads the board and records nothing. */
    method GetNextGameState(teamColor: Color) returns (state: ChessGameStates, fault: Option<Fault>)
      requires movesManager.chessboard == chessboard && WellFormed(chessboard.cells)
      ensures var v := LegacyNextGameState(chessboard.cells, teamColor);
        fault == v.fault && (fault.None? ==> state == v.state)
    {
      var kingCell := movesManager.FindKingCell(teamColor);
      if kingCell.None? {
        return ChessGameStates.Default, Some(MissingKing);
      }
      var king := kingCell.value;
      var enemyColor := if At(chessboard.cells, king).figure.value.color == White then Black else White;
      var reachingEnemyCells := ReachingEnemyCells(chessboard.cells, king, enemyColor, None);
      if |reachingEnemyCells| > 0 {
        state := ClassifyCheck(teamColor, king, reachingEnemyCells[0]);
        return state, None;
      }
      state, fault := ClassifyQuiet(teamColor, enemyColor);
    }

    /** The branch of the older `getNextGameState` for an attacked King. */
    method ClassifyCheck(teamColor: Color, king: Pos, enemyCell: Pos) returns (state: ChessGameStates)
      requires movesManager.chessboard == chessboard && WellFormed(chessboard.cells) && InBounds(king) && InBounds(enemyCell)
      ensures state == LegacyCheckState(chessboard.cells, teamColor, king, enemyCell)
    {
      var canMove := movesManager.CanMoveFromCell(king);
      if canMove {
        return Check;
      }
      var reachingAlliesCells := ReachingEnemyCells(chessboard.cells, enemyCell, teamColor, Some(king));
      if |reachingAlliesCells| > 0 {
        return Check;
      }
      return Checkmate;
    }

    /** The branch of the older `getNextGameState` for a King that is not attacked. */
    method ClassifyQuiet(teamColor: Color, enemyColor: Color) returns (state: ChessGameStates, fault: Option<Fault>)
      requires movesManager.chessboard == chessboard && WellFormed(chessboard.cells)
      ensures fault == QuietFault(chessboard.cells, teamColor, enemyColor)
      ensures fault.None? ==> state == LegacyQuietState(chessboard.cells, teamColor, enemyColor)
    {
      var g := chessboard.cells;
      var teamCells := GetOneTeamCells(teamColor);
      var enemyCells := GetOneTeamCells(enemyColor);
      if |teamCells| == 1 && |enemyCells| == 1 {
        if !KingAt(g, teamCells[0]) || !KingAt(g, enemyCells[0]) {
          return ChessGameStates.Default, Some(NonKingLastFigures);
        }
        return Draw, None;
      }
      var canMove := FindMovable(teamCells);
      if canMove {
        return InProcess, None;
      }
      return Mate, None;
    }

    /** The older `switchPlayer`; the end-of-game and switch callbacks are user-interface hooks. */
    method SwitchPlayer() returns (fault: Option<Fault>)
      requires Valid()
      modifies this, chessboard
      ensures Valid() && chessboard == old(chessboard) && movesManager == old(movesManager)
      ensures var o := LegacySwitchPlayerOutcome(old(Snapshot()));
        Snapshot() == o.state && fault == o.fault
    {
      var team := if gameInfo.currentTeamColor == White then Black else White;
      gameInfo := gameInfo.(currentTeamColor := team);
      var state;
      state, fault := GetNextGameState(team);
      if fault.Some? {
        return;
      }
      gameInfo := gameInfo.(gameState := state);
      if state == Mate || state == Checkmate || state == Draw {
        SetDefaultCellsState();
      }
    }

    /** The older `selectCell`. */
    method SelectCell(p: Pos) returns (fault: Option<Fault>)
      requires Valid() && InBounds(p)
      modifies this, chessboard
      ensures Valid() && chessboard == old(chessboard) && movesManager == old(movesManager)
      ensures var o := LegacySelectCellOutcome(old(Snapshot()), p);
        Snapshot() == o.state && fault == o.fault
    {
      var cell := At(chessboard.cells, p);
      if cell.status != CellStatus.Default {
        return Some(NotDefaultStatus);
      }
      if cell.figure.None? {
        return Some(MissingFigure);
      }
      chessboard.cells := SetStatus(chessboard.cells, p, Active, cell.action);
      var enemyColor := if cell.figure.value.color == Black then White else Black;
      assert enemyColor == Opponent(cell.figure.value.color);
      var walk := PatternWalk(chessboard.cells, p, enemyColor, None);
      fault := InstallAlong(p, walk.squares);
      if fault.Some? {
        return;
      }
      if walk.fault.Some? {
        return walk.fault;
      }
      selected := true;
      lastSelectedCell := Some(p);
    }

    /** The older `selectCell`'s callback `process`: `setOnMoveAction` on each square of the walk in turn. */
    method InstallAlong(from: Pos, squares: seq<Pos>) returns (fault: Option<Fault>)
      requires Valid() && InBounds(from) && AllInBounds(squares)
      modifies chessboard
      ensures Valid()
      ensures var r := LegacyInstallMoves(old(chessboard.cells), from, squares);
        chessboard.cells == r.cells && fault == r.fault
    {
      ghost var base := chessboard.cells;
      fault := None;
      for k := 0 to |squares|
        invariant WellFormed(chessboard.cells) && fault.None?
        invariant LegacyInstallMoves(chessboard.cells, from, squares[k..]) == LegacyInstallMoves(base, from, squares)
      {
        assert squares[k..][0] == squares[k] && squares[k..][1..] == squares[k + 1..];
        fault := movesManager.SetOnMoveAction(from, squares[k]);
        if fault.Some? {
          return;
        }
      }
      assert squares[|squares|..] == [];
    }

    /** The cell's action: the installed move, then `switchPlayer` as the post-move hook. */
    method RunAction(p: Pos) returns (fault: Option<Fault>)
      requires Valid() && InBounds(p)
      modifies this, chessboard
      ensures Valid() && chessboard == old(chessboard) && movesManager == old(movesManager)
      ensures var o := LegacyRunActionOutcome(old(Snapshot()), p);
        Snapshot() == o.state && fault == o.fault
    {
      match At(chessboard.cells, p).action
      case NoAction =>
        return None;
      case MoveAction(from, to) =>
        RelocateKeepsActions(chessboard.cells, from, to);
        movesManager.RunMoveAction(from, to);
        fault := SwitchPlayer();
    }

    /** The older `onAction`; the final refresh of the cell components is a user-interface hook. */
    method OnAction(p: Pos) returns (fault: Option<Fault>)
      requires Valid() && InBounds(p)
      modifies this, chessboard
      ensures Valid() && chessboard == old(chessboard) && movesManager == old(movesManager)
      ensures var o := LegacyOnActionOutcome(old(Snapshot()), p);
        Snapshot() == o.state && fault == o.fault
    {
      var cell := At(chessboard.cells, p);
      fault := None;
      if selected {
        match cell.status
        case Default =>
          SetDefaultCellsState();
          var prevCell := lastSelectedCell;
          if gameInfo.gameState != Check && prevCell.Some?
            && IsTeammates(At(chessboard.cells, prevCell.value), At(chessboard.cells, p)) {
            fault := SelectCell(p);
          } else {
            CancelSelect();
          }
        case Active =>
          CancelSelect();
        case _ =>
          fault := RunAction(p);
          if fault.Some? {
            return;
          }
          CancelSelect();
          if gameInfo.gameState == Check {
            var kingCell := movesManager.FindKingCell(gameInfo.currentTeamColor);
            if kingCell.None? {
              return Some(MissingKing);
            }
            fault := SelectCell(kingCell.value);
          }
      } else {
        var isCurrentTeamCell := cell.figure.Some? && cell.status == CellStatus.Default
          && cell.figure.value.color == gameInfo.currentTeamColor;
        if isCurrentTeamCell {
          var gameState := gameInfo.gameState;
          if gameState == ChessGameStates.Default || gameState == InProcess {
            fault := SelectCell(p);
          }
          if gameState == Check && cell.figure.value.figureName == King {
            fault := SelectCell(p);
          }
        }
      }
    }
  }
}
