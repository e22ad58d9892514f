/**
 * What the click-driven state machine of ChessboardManager.ts guarantees,
 * stated on the functions of `BoardManager` and proved for every state.
 */
module ManagerProperties {
  import opened ChessModel
  import opened MovesManager
  import opened BoardManager

  // ---------------------------------------------------------------------------
  // Cancelling
  // ---------------------------------------------------------------------------

  /**
   * `cancelSelect` drops the selection and leaves every cell Default with no
   * action, the figures, the remembered cell and the game information as they
   * were; cancelling twice is cancelling once.
   */
  lemma CancelResets(s: ManagerState)
    requires Sane(s)
    ensures var r := Cancel(s);
      && !r.selected && r.lastSelectedCell == s.lastSelectedCell && r.gameInfo == s.gameInfo
      && SameFigures(r.cells, s.cells)
      && (forall q | InBounds(q) :: At(r.cells, q).status == CellStatus.Default && At(r.cells, q).action == NoAction)
      && Cancel(r) == r
  {
    var r := Cancel(s);
    GridExtensionality(ResetCells(r.cells), r.cells);
  }

  // ---------------------------------------------------------------------------
  // Selecting
  // ---------------------------------------------------------------------------

  /** A cell once `setOnMoveAction(from, …)` has marked it: Target when occupied, OnWay when empty, with the move installed. */
  function Marked(c: Cell, from: Pos, to: Pos): Cell {
    c.(status := if c.figure.Some? then Target else OnWay, action := MoveAction(from, to))
  }

  /** The installation seen from one square `q`: marked when it is on the walk and passes the test, untouched otherwise. */
  lemma {:induction false} InstallMovesAt(base: Grid, g: Grid, from: Pos, squares: seq<Pos>, enemy: Color, target: Option<Pos>, q: Pos)
    requires WellFormed(base) && WellFormed(g) && InBounds(from) && AllInBounds(squares) && InBounds(q)
    requires InstallMoves(base, g, from, squares, enemy, target).fault.None?
    ensures At(InstallMoves(base, g, from, squares, enemy, target).cells, q) ==
      if q in squares && MayInstall(base, from, q, enemy, target) then Marked(At(g, q), from, q) else At(g, q)
    decreases |squares|
  {
    if squares != [] {
      var next := squares[0];
      var rest := squares[1..];
      assert q in squares <==> q == next || q in rest;
      if !MayInstall(base, from, next, enemy, target) {
        InstallMovesAt(base, g, from, rest, enemy, target, q);
      } else {
        var g1 := InstallMove(g, from, next).value;
        InstallMovesAt(base, g1, from, rest, enemy, target, q);
        if q == next {
          assert At(g1, q) == Marked(At(g, q), from, q);
        } else {
          assert At(g1, q) == At(g, q);
        }
      }
    }
  }

  /**
   * When no `setOnMoveAction` throws, the installation marks exactly the squares
   * of the walk that pass the test, and leaves every other cell as it was.
   */
  lemma InstallMovesExact(base: Grid, g: Grid, from: Pos, squares: seq<Pos>, enemy: Color, target: Option<Pos>)
    requires WellFormed(base) && WellFormed(g) && InBounds(from) && AllInBounds(squares)
    requires InstallMoves(base, g, from, squares, enemy, target).fault.None?
    ensures var r := InstallMoves(base, g, from, squares, enemy, target).cells;
      forall q | InBounds(q) :: At(r, q) ==
        if q in squares && MayInstall(base, from, q, enemy, target) then Marked(At(g, q), from, q) else At(g, q)
  {
    forall q | InBounds(q)
      ensures At(InstallMoves(base, g, from, squares, enemy, target).cells, q) ==
        if q in squares && MayInstall(base, from, q, enemy, target) then Marked(At(g, q), from, q) else At(g, q)
    {
      InstallMovesAt(base, g, from, squares, enemy, target, q);
    }
  }

  /**
   * `selectCell` on a Default cell holding a figure: when nothing throws, the cell
   * is selected and Active, the moves that pass the test are installed on the
   * squares of the figure's walk, and every other cell is left as it was. It
   * refuses a cell that is not Default, then an empty one, without a change.
   */
  lemma SelectCellExact(s: ManagerState, p: Pos)
    requires Sane(s) && InBounds(p)
    ensures var c := At(s.cells, p);
      var r := SelectCellOutcome(s, p);
      && (c.status != CellStatus.Default ==> r == Outcome(s, Some(NotDefaultStatus)))
      && (c.status == CellStatus.Default && c.figure.None? ==> r == Outcome(s, Some(MissingFigure)))
      && (r.fault.None? ==>
            var g1 := SetStatus(s.cells, p, Active, c.action);
            var enemy := Opponent(c.figure.value.color);
            var w := PatternWalk(g1, p, enemy, None);
            && r.state.selected && r.state.lastSelectedCell == Some(p) && r.state.gameInfo == s.gameInfo
            && At(r.state.cells, p).status == Active
            && forall q | InBounds(q) && q != p :: At(r.state.cells, q) ==
                 if q in w.squares && MayInstall(g1, p, q, enemy, s.gameInfo.priorityTargetCell)
                 then Marked(At(s.cells, q), p, q) else At(s.cells, q))
  {
    var c := At(s.cells, p);
    var r := SelectCellOutcome(s, p);
    if c.status == CellStatus.Default && c.figure.Some? && r.fault.None? {
      var g1 := SetStatus(s.cells, p, Active, c.action);
      var enemy := Opponent(c.figure.value.color);
      var w := PatternWalk(g1, p, enemy, None);
      var target := s.gameInfo.priorityTargetCell;
      var inst := InstallMoves(g1, g1, p, w.squares, enemy, target);
      assert r.state.cells == inst.cells;
      InstallMovesExact(g1, g1, p, w.squares, enemy, target);
    }
  }

  // ---------------------------------------------------------------------------
  // Clicking
  // ---------------------------------------------------------------------------

  /**
   * With nothing selected, a click selects only a Default cell of the side to
   * move, only in the states Default, InProcess and Check, and in Check only a
   * King that can move or a figure that reaches the priority target; it never
   * changes the side to move or the game state.
   */
  lemma IdleClickSelectsOwnFigure(s: ManagerState, p: Pos)
    requires Sane(s) && InBounds(p) && !s.selected
    ensures var r := OnActionOutcome(s, p);
      && r.state.gameInfo == s.gameInfo
      && (r.state.selected ==>
            && IsCurrentTeamCell(s, p) && r.state.lastSelectedCell == Some(p)
            && s.gameInfo.gameState in {ChessGameStates.Default, InProcess, Check}
            && (s.gameInfo.gameState == Check ==>
                  (KingAt(s.cells, p) && CanMoveFrom(s.cells, p)) || CanBeat(s, p) == Ok(true)))
  {
    SelectCellExact(s, p);
  }

  /**
   * In Check, with nothing selected, a click on a Default cell of the side to
   * move: a King that can move, or a figure that reaches the priority target,
   * goes through `selectCell` and ends selected when that does not throw; any
   * other figure is left alone when `canBeatPriorityTarget` answers false, and
   * its error is thrown, with nothing changed, when it throws.
   */
  lemma CheckIdleClick(s: ManagerState, p: Pos)
    requires Sane(s) && InBounds(p) && !s.selected && IsCurrentTeamCell(s, p) && s.gameInfo.gameState == Check
    ensures var r := OnActionOutcome(s, p);
      var free := KingAt(s.cells, p) && CanMoveFrom(s.cells, p);
      && (free || CanBeat(s, p) == Ok(true) ==> r == SelectCellOutcome(s, p))
      && (free || CanBeat(s, p) == Ok(true) ==> (r.state.selected <==> SelectCellOutcome(s, p).fault.None?))
      && (!free && CanBeat(s, p) == Ok(false) ==> r == Outcome(s, None))
      && (!free && CanBeat(s, p).Err? ==> r == Outcome(s, Some(CanBeat(s, p).fault)))
  {
  }

  /** `canBeatPriorityTarget` depends on the figures and the priority target only. */
  lemma CanBeatSameFigures(s: ManagerState, t: ManagerState, p: Pos)
    requires Sane(s) && Sane(t) && InBounds(p) && SameFigures(s.cells, t.cells)
    requires s.gameInfo.priorityTargetCell == t.gameInfo.priorityTargetCell
    ensures CanBeat(s, p) == CanBeat(t, p)
  {
    match s.gameInfo.priorityTargetCell
    case None =>
    case Some(c) =>
      assert At(s.cells, c).figure == At(t.cells, c).figure && At(s.cells, p).figure == At(t.cells, p).figure;
      if At(s.cells, c).figure.Some? {
        PatternSameFigures(s.cells, t.cells, p, At(s.cells, c).figure.value.color, None);
      }
  }

  /**
   * With a figure selected, a click on a Default cell holding a teammate of it
   * resets the cells. Outside Check the teammate is selected. In Check a teammate
   * that reaches the priority target is selected, one that does not cancels the
   * selection, and an error of `canBeatPriorityTarget` is thrown with the cells
   * reset and the selection kept.
   */
  lemma TeammateClick(s: ManagerState, p: Pos)
    requires Sane(s) && InBounds(p) && s.selected && At(s.cells, p).status == CellStatus.Default
    requires s.lastSelectedCell.Some? && IsTeammates(At(s.cells, s.lastSelectedCell.value), At(s.cells, p))
    ensures var r := OnActionOutcome(s, p);
      var s1 := s.(cells := ResetCells(s.cells));
      && (s.gameInfo.gameState != Check ==> r == SelectCellOutcome(s1, p))
      && (s.gameInfo.gameState == Check && CanBeat(s, p) == Ok(true) ==> r == SelectCellOutcome(s1, p))
      && (s.gameInfo.gameState == Check && CanBeat(s, p) == Ok(false) ==>
            && r.fault.None? && !r.state.selected
            && forall q | InBounds(q) :: At(r.state.cells, q) == ResetCell(At(s.cells, q)))
      && (s.gameInfo.gameState == Check && CanBeat(s, p).Err? ==> r == Outcome(s1, Some(CanBeat(s, p).fault)))
  {
    var s1 := s.(cells := ResetCells(s.cells));
    var prev := s.lastSelectedCell.value;
    assert At(s1.cells, prev).figure == At(s.cells, prev).figure;
    assert At(s1.cells, p).figure == At(s.cells, p).figure;
    CanBeatSameFigures(s, s1, p);
  }

  /**
   * What `canBeatPriorityTarget` answers: an error when the target cell is empty,
   * when the clicked cell is empty, or when both hold the same colour; otherwise
   * true exactly when the target is on the figure's walk against the target's
   * colour, and false exactly when it is not and the walk did not throw.
   */
  lemma CanBeatCases(s: ManagerState, p: Pos)
    requires Sane(s) && InBounds(p) && s.gameInfo.priorityTargetCell.Some?
    ensures var t := s.gameInfo.priorityTargetCell.value;
      && (At(s.cells, t).figure.None? ==> CanBeat(s, p) == Err(EmptyPriorityTarget))
      && (At(s.cells, t).figure.Some? && At(s.cells, p).figure.None? ==> CanBeat(s, p) == Err(MissingFigure))
      && (IsTeammates(At(s.cells, p), At(s.cells, t)) ==> CanBeat(s, p) == Err(SameTeamTarget))
      && (IsEnemies(At(s.cells, p), At(s.cells, t)) ==>
            var w := PatternWalk(s.cells, p, At(s.cells, t).figure.value.color, None);
            && (CanBeat(s, p) == Ok(true) <==> t in w.squares)
            && (CanBeat(s, p) == Ok(false) <==> t !in w.squares && w.fault.None?)
            && (CanBeat(s, p).Err? <==> t !in w.squares && w.fault.Some?))
  {
  }

  /**
   * For a rook, bishop or queen, `canBeatPriorityTarget` never throws once the
   * target holds an enemy figure, and answers true exactly when the figure sees
   * the target along one of its lines with only empty squares between them.
   */
  lemma CanBeatSlider(s: ManagerState, p: Pos)
    requires Sane(s) && InBounds(p) && s.gameInfo.priorityTargetCell.Some?
    requires IsEnemies(At(s.cells, p), At(s.cells, s.gameInfo.priorityTargetCell.value))
    requires At(s.cells, p).figure.value.figureName in {Rook, Bishop, Queen}
    ensures var t := s.gameInfo.priorityTargetCell.value;
      var kind := At(s.cells, p).figure.value.figureName;
      && CanBeat(s, p).Ok?
      && (CanBeat(s, p) == Ok(true) <==>
            || (kind != Bishop && SeesAlong(s.cells, p, t, StraightDirections, None))
            || (kind != Rook && SeesAlong(s.cells, p, t, DiagonalDirections, None)))
  {
    var t := s.gameInfo.priorityTargetCell.value;
    var enemy := At(s.cells, t).figure.value.color;
    var straight := Lines(s.cells, p, StraightDirections, enemy, None);
    var diagonal := Lines(s.cells, p, DiagonalDirections, enemy, None);
    var w := PatternWalk(s.cells, p, enemy, None);
    assert w.fault.None?;
    assert CanBeat(s, p) == Ok(t in w.squares);
    assert t in w.squares <==>
      || (At(s.cells, p).figure.value.figureName != Bishop && t in straight)
      || (At(s.cells, p).figure.value.figureName != Rook && t in diagonal);
    assert AllUnit(StraightDirections) && AllUnit(DiagonalDirections);
    assert Passable(s.cells, t, enemy);
    LinesIff(s.cells, p, StraightDirections, enemy, None, t);
    LinesIff(s.cells, p, DiagonalDirections, enemy, None, t);
  }

  /**
   * For a knight or a king, `canBeatPriorityTarget` never throws once the target
   * holds an enemy figure, and answers true exactly when the target is a knight's
   * jump, or a king's step, away.
   */
  lemma CanBeatStepper(s: ManagerState, p: Pos)
    requires Sane(s) && InBounds(p) && s.gameInfo.priorityTargetCell.Some?
    requires IsEnemies(At(s.cells, p), At(s.cells, s.gameInfo.priorityTargetCell.value))
    requires At(s.cells, p).figure.value.figureName in {Knight, King}
    ensures var t := s.gameInfo.priorityTargetCell.value;
      && CanBeat(s, p).Ok?
      && (At(s.cells, p).figure.value.figureName == Knight ==> (CanBeat(s, p) == Ok(true) <==> KnightJump(p, t)))
      && (At(s.cells, p).figure.value.figureName == King ==> (CanBeat(s, p) == Ok(true) <==> Adjacent(p, t)))
  {
    var t := s.gameInfo.priorityTargetCell.value;
    var enemy := At(s.cells, t).figure.value.color;
    assert Passable(s.cells, t, enemy);
    KnightStepsIff(s.cells, p, enemy, None, t);
    KingStepsIff(s.cells, p, enemy, None, t);
  }

  /** Once the game is over (Mate, Checkmate or Draw) and nothing is selected, a click changes nothing. */
  lemma GameOverIgnoresClicks(s: ManagerState, p: Pos)
    requires Sane(s) && InBounds(p) && !s.selected && IsTerminal(s.gameInfo.gameState)
    ensures OnActionOutcome(s, p) == Outcome(s, None)
  {
  }

  /**
   * A click on the selected cell itself, or on a Default cell that is not a
   * teammate of the selected figure, cancels the selection.
   */
  lemma ClickElsewhereCancels(s: ManagerState, p: Pos)
    requires Sane(s) && InBounds(p) && s.selected
    requires At(s.cells, p).status == Active
      || (At(s.cells, p).status == CellStatus.Default
          && !(s.lastSelectedCell.Some? && IsTeammates(At(s.cells, s.lastSelectedCell.value), At(s.cells, p))))
    ensures OnActionOutcome(s, p).fault.None?
    ensures !OnActionOutcome(s, p).state.selected
    ensures forall q | InBounds(q) :: At(OnActionOutcome(s, p).state.cells, q) == ResetCell(At(s.cells, q))
  {
    var r := OnActionOutcome(s, p);
    if At(s.cells, p).status == CellStatus.Default {
      var s1 := s.(cells := ResetCells(s.cells));
      var prev := s.lastSelectedCell;
      if prev.Some? {
        assert At(s1.cells, prev.value).figure == At(s.cells, prev.value).figure;
        assert At(s1.cells, p).figure == At(s.cells, p).figure;
      }
      assert r == Outcome(Cancel(s1), None);
    }
  }

  /**
   * `switchPlayer` always hands the move to the other side and keeps the figures
   * and the selection; its error is the classification's; a terminal state resets
   * every cell.
   */
  lemma SwitchPlayerFlips(s: ManagerState)
    requires Sane(s)
    ensures var r := SwitchPlayerOutcome(s);
      var team := Opponent(s.gameInfo.currentTeamColor);
      var v := NextGameState(s.cells, team, s.gameInfo.priorityTargetCell);
      && r.state.gameInfo.currentTeamColor == team
      && r.state.gameInfo.priorityTargetCell == v.target
      && r.fault == v.fault
      && (r.fault.None? ==> r.state.gameInfo.gameState == v.state)
      && r.state.selected == s.selected && r.state.lastSelectedCell == s.lastSelectedCell
      && SameFigures(r.state.cells, s.cells)
  {
    var team := if s.gameInfo.currentTeamColor == White then Black else White;
    assert team == Opponent(s.gameInfo.currentTeamColor);
    var v := NextGameState(s.cells, team, s.gameInfo.priorityTargetCell);
    var r := SwitchPlayerOutcome(s);
    if v.fault.None? && IsTerminal(v.state) {
      assert r.state.cells == ResetCells(s.cells);
    } else {
      assert r.state.cells == s.cells;
    }
  }

  /**
   * Playing the move installed on `p` and cancelling: the figure goes from `from`
   * to `to`, the other side is to move, and, unless classifying the new position
   * throws, every cell ends Default with no action and nothing is selected.
   */
  lemma RunThenCancelPlays(s: ManagerState, p: Pos, from: Pos, to: Pos)
    requires Sane(s) && InBounds(p) && At(s.cells, p).action == MoveAction(from, to)
    ensures var r := RunThenCancel(s, p);
      && InBounds(from) && InBounds(to)
      && r.state.gameInfo.currentTeamColor == Opponent(s.gameInfo.currentTeamColor)
      && SameFigures(r.state.cells, Relocate(s.cells, from, to))
      && r.fault == NextGameState(Relocate(s.cells, from, to), Opponent(s.gameInfo.currentTeamColor), s.gameInfo.priorityTargetCell).fault
      && (r.fault.None? ==>
            && !r.state.selected
            && forall q | InBounds(q) :: At(r.state.cells, q).status == CellStatus.Default && At(r.state.cells, q).action == NoAction)
  {
    assert InBounds(At(s.cells, p).action.from) && InBounds(At(s.cells, p).action.to);
    var moved := s.(cells := Relocate(s.cells, from, to));
    RelocateKeepsActions(s.cells, from, to);
    var o := SwitchPlayerOutcome(moved);
    assert RunActionOutcome(s, p) == o;
    SwitchPlayerFlips(moved);
    if o.fault.None? {
      CancelResets(o.state);
    }
  }

  /**
   * A click, while a figure is selected, on a square where a move is installed
   * plays it (see `RunThenCancelPlays`).
   */
  lemma MoveClickPlays(s: ManagerState, p: Pos, from: Pos, to: Pos)
    requires Sane(s) && InBounds(p) && s.selected
    requires At(s.cells, p).status in {OnWay, Target} && At(s.cells, p).action == MoveAction(from, to)
    ensures InBounds(from) && InBounds(to)
    ensures OnActionOutcome(s, p) == RunThenCancel(s, p)
    ensures OnActionOutcome(s, p).state.gameInfo.currentTeamColor == Opponent(s.gameInfo.currentTeamColor)
    ensures SameFigures(OnActionOutcome(s, p).state.cells, Relocate(s.cells, from, to))
  {
    RunThenCancelPlays(s, p, from, to);
  }

  /** Moving a figure on two boards with the same figures gives boards with the same figures. */
  lemma RelocateSameFigures(g: Grid, h: Grid, from: Pos, to: Pos)
    requires WellFormed(g) && WellFormed(h) && SameFigures(g, h) && InBounds(from) && InBounds(to)
    ensures SameFigures(Relocate(g, from, to), Relocate(h, from, to))
  {
    assert At(g, from).figure == At(h, from).figure;
  }

  /** The scan of `getOneTeamCells` depends on the figures only. */
  lemma {:induction false} ScannedTeamSameFigures(g: Grid, h: Grid, n: nat, c: Color)
    requires WellFormed(g) && WellFormed(h) && SameFigures(g, h) && n <= Size * Size
    ensures ScannedTeam(g, n, c) == ScannedTeam(h, n, c)
  {
    if n > 0 {
      ScannedTeamSameFigures(g, h, n - 1, c);
      ScanPosIndex(n - 1);
      assert At(g, ScanPos(n - 1)).figure == At(h, ScanPos(n - 1)).figure;
    }
  }

  /** Whether some listed figure can move depends on the figures only. */
  lemma {:induction false} SomeCanMoveSameFigures(g: Grid, h: Grid, ps: seq<Pos>)
    requires WellFormed(g) && WellFormed(h) && SameFigures(g, h) && AllInBounds(ps)
    ensures SomeCanMove(g, ps) == SomeCanMove(h, ps)
    decreases |ps|
  {
    if ps != [] {
      CanMoveSameFigures(g, h, ps[0]);
      SomeCanMoveSameFigures(g, h, ps[1..]);
    }
  }

  /** The attacked-King branch of `getNextGameState` depends on the figures only. */
  lemma CheckStateSameFigures(g: Grid, h: Grid, team: Color, k: Pos, attacker: Pos)
    requires WellFormed(g) && WellFormed(h) && SameFigures(g, h) && InBounds(k) && InBounds(attacker)
    ensures CheckState(g, team, k, attacker) == CheckState(h, team, k, attacker)
  {
    CanMoveSameFigures(g, h, k);
    ReachingSameFigures(g, h, attacker, team, Some(k));
  }

  /** The quiet branch of `getNextGameState` depends on the figures only. */
  lemma QuietVerdictSameFigures(g: Grid, h: Grid, team: Color, enemy: Color)
    requires WellFormed(g) && WellFormed(h) && SameFigures(g, h)
    ensures QuietVerdict(g, team, enemy) == QuietVerdict(h, team, enemy)
  {
    ScannedTeamSameFigures(g, h, Size * Size, team);
    ScannedTeamSameFigures(g, h, Size * Size, enemy);
    SomeCanMoveSameFigures(g, h, TeamCells(g, team));
    if LastFigures(g, team, enemy) {
      assert At(g, TeamCells(g, team)[0]).figure == At(h, TeamCells(g, team)[0]).figure;
      assert At(g, TeamCells(g, enemy)[0]).figure == At(h, TeamCells(g, enemy)[0]).figure;
    }
  }

  /** `getNextGameState` depends on the figures only: statuses and installed moves play no part. */
  lemma NextGameStateSameFigures(g: Grid, h: Grid, team: Color, target: Option<Pos>)
    requires WellFormed(g) && WellFormed(h) && SameFigures(g, h)
    ensures NextGameState(g, team, target) == NextGameState(h, team, target)
  {
    FindKingSameFigures(g, h, team);
    match FindKing(g, team)
    case None =>
    case Some(k) =>
      assert At(g, k).figure == At(h, k).figure;
      var enemy := if At(g, k).figure.value.color == White then Black else White;
      ReachingSameFigures(g, h, k, enemy, None);
      var reaching := ReachingEnemyCells(g, k, enemy, None);
      if reaching != [] {
        CheckStateSameFigures(g, h, team, k, reaching[0]);
        assert KingVerdict(g, team, k) == CheckVerdict(g, team, k, reaching[0]);
      } else {
        QuietVerdictSameFigures(g, h, team, enemy);
      }
  }

  /**
   * A whole turn by clicks, with no priority target in states Default and
   * InProcess: a click on a figure other than the King of the side to move
   * installs the move onto each square of its walk; running the action of one of
   * those squares, or clicking it, moves the figure there, hands the move to the
   * other side and records the verdict of `getNextGameState` on the board after
   * the move.
   */
  lemma IdleClickThenMove(s: ManagerState, p: Pos, to: Pos)
    requires Sane(s) && InBounds(p) && InBounds(to) && !s.selected && IsCurrentTeamCell(s, p) && !KingAt(s.cells, p)
    requires s.gameInfo.gameState in {ChessGameStates.Default, InProcess} && s.gameInfo.priorityTargetCell.None?
    requires to in PatternWalk(s.cells, p, Opponent(s.gameInfo.currentTeamColor), None).squares
    requires OnActionOutcome(s, p).fault.None?
    ensures var r1 := OnActionOutcome(s, p);
      var r2 := OnActionOutcome(r1.state, to);
      var team := Opponent(s.gameInfo.currentTeamColor);
      var v := NextGameState(Relocate(s.cells, p, to), team, None);
      var a := RunActionOutcome(r1.state, to);
      && r1.state.selected && At(r1.state.cells, to).action == MoveAction(p, to)
      && a.state.gameInfo.currentTeamColor == team
      && SameFigures(a.state.cells, Relocate(s.cells, p, to))
      && a.fault == v.fault
      && (a.fault.None? ==> a.state.gameInfo.gameState == v.state && a.state.gameInfo.priorityTargetCell == v.target)
      && r2 == RunThenCancel(r1.state, to)
      && r2.state.gameInfo.currentTeamColor == team
      && SameFigures(r2.state.cells, Relocate(s.cells, p, to))
      && r2.fault == v.fault
      && (r2.fault.None? ==> r2.state.gameInfo.gameState == v.state && r2.state.gameInfo.priorityTargetCell == v.target)
  {
    var c := At(s.cells, p);
    var enemy := Opponent(c.figure.value.color);
    var r1 := OnActionOutcome(s, p);
    assert r1 == SelectCellOutcome(s, p);
    SelectCellExact(s, p);
    var g1 := SetStatus(s.cells, p, Active, c.action);
    assert SameFigures(s.cells, g1);
    PatternSameFigures(s.cells, g1, p, enemy, None);
    assert to != p;
    assert At(r1.state.cells, to) == Marked(At(s.cells, to), p, to);
    var team := Opponent(s.gameInfo.currentTeamColor);
    MoveClickPlays(r1.state, to, p, to);
    RunThenCancelPlays(r1.state, to, p, to);
    assert SameFigures(r1.state.cells, s.cells);
    RelocateSameFigures(r1.state.cells, s.cells, p, to);
    var moved := r1.state.(cells := Relocate(r1.state.cells, p, to));
    RelocateKeepsActions(r1.state.cells, p, to);
    NextGameStateSameFigures(moved.cells, Relocate(s.cells, p, to), team, None);
    assert RunActionOutcome(r1.state, to) == SwitchPlayerOutcome(moved);
    SwitchPlayerFlips(moved);
  }

  // ---------------------------------------------------------------------------
  // Classifying a position
  // ---------------------------------------------------------------------------

  /**
   * The King of `team` is attacked: the first attacker becomes the priority
   * target, nothing throws, and the state is Checkmate exactly when the King has
   * no move and no figure of `team` (the King ignored) reaches that attacker.
   */
  lemma AttackedKingVerdict(g: Grid, team: Color, target: Option<Pos>, k: Pos)
    requires WellFormed(g) && FindKing(g, team) == Some(k)
    requires ReachingEnemyCells(g, k, Opponent(team), None) != []
    ensures var attacker := ReachingEnemyCells(g, k, Opponent(team), None)[0];
      var v := NextGameState(g, team, target);
      && v.fault.None? && v.target == Some(attacker)
      && v.state in {Check, Checkmate}
      && (v.state == Checkmate <==> !CanMoveFrom(g, k) && ReachingEnemyCells(g, attacker, team, Some(k)) == [])
  {
    var enemy := if At(g, k).figure.value.color == White then Black else White;
    assert enemy == Opponent(team);
  }

  /** The King of `team` is not attacked: the verdict is the quiet one, with no priority target. */
  lemma QuietKing(g: Grid, team: Color, target: Option<Pos>, k: Pos)
    requires WellFormed(g) && FindKing(g, team) == Some(k)
    requires ReachingEnemyCells(g, k, Opponent(team), None) == []
    ensures NextGameState(g, team, target) == QuietVerdict(g, team, Opponent(team))
  {
    var enemy := if At(g, k).figure.value.color == White then Black else White;
    assert enemy == Opponent(team);
  }

  /**
   * A quiet position with one figure left on each side is a Draw when both are
   * Kings and throws otherwise.
   */
  lemma LastFiguresVerdict(g: Grid, team: Color, enemy: Color)
    requires WellFormed(g) && LastFigures(g, team, enemy)
    ensures var v := QuietVerdict(g, team, enemy);
      && (v.fault.None? <==> KingAt(g, TeamCells(g, team)[0]) && KingAt(g, TeamCells(g, enemy)[0]))
      && (v.fault.None? ==> v.state == Draw)
  {
  }

  /**
   * A quiet position with more figures never throws, and is a Mate exactly when
   * no figure of `team` can move (InProcess otherwise).
   */
  lemma MateIff(g: Grid, team: Color, enemy: Color)
    requires WellFormed(g) && !LastFigures(g, team, enemy)
    ensures var v := QuietVerdict(g, team, enemy);
      && v.fault.None? && v.state in {InProcess, Mate}
      && (v.state == Mate <==> forall q | InBounds(q) && HoldsColor(g, q, team) :: !CanMoveFrom(g, q))
  {
    var cells := TeamCells(g, team);
    SomeCanMoveIff(g, cells);
    forall q | InBounds(q)
      ensures q in cells <==> HoldsColor(g, q, team)
    {
      TeamCellsIff(g, team, q);
    }
  }

  /** Without a King of `team` the classification throws and leaves the state and the target alone. */
  lemma MissingKingVerdict(g: Grid, team: Color, target: Option<Pos>)
    requires WellFormed(g) && forall q | InBounds(q) :: !IsKingOf(g, q, team)
    ensures NextGameState(g, team, target) == Verdict(ChessGameStates.Default, target, Some(MissingKing))
  {
  }
}
