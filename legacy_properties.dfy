/**
 * What the older click-driven state machine (src/services/ChessboardManager.ts)
 * guarantees, stated on the functions of `LegacyBoardManager`, and how it
 * relates to the current one.
 */
module LegacyProperties {
  import opened ChessModel
  import opened MovesManager
  import opened BoardManager
  import opened ManagerProperties
  import opened LegacyMovesManager
  import opened LegacyBoardManager

  // ---------------------------------------------------------------------------
  // Classifying a position
  // ---------------------------------------------------------------------------

  /** The older loop over the team's figures agrees with the current one. */
  lemma {:induction false} LegacySomeCanMoveAgrees(g: Grid, ps: seq<Pos>)
    requires WellFormed(g) && AllInBounds(ps)
    ensures LegacySomeCanMove(g, ps) == SomeCanMove(g, ps)
    decreases |ps|
  {
    if ps != [] {
      LegacyCanMoveFromAgrees(g, ps[0]);
      LegacySomeCanMoveAgrees(g, ps[1..]);
    }
  }

  /**
   * The older `getNextGameState` reaches the state and the error of the current
   * one, run without a priority target; only the target it would record is gone.
   */
  lemma LegacyNextGameStateAgrees(g: Grid, team: Color)
    requires WellFormed(g)
    ensures LegacyNextGameState(g, team).state == NextGameState(g, team, None).state
    ensures LegacyNextGameState(g, team).fault == NextGameState(g, team, None).fault
  {
    match FindKing(g, team)
    case None =>
    case Some(k) =>
      var enemy := if At(g, k).figure.value.color == White then Black else White;
      var reaching := ReachingEnemyCells(g, k, enemy, None);
      if reaching != [] {
        LegacyCheckStateAgrees(g, team, k, reaching[0]);
        assert NextGameState(g, team, None) == CheckVerdict(g, team, k, reaching[0]);
      } else {
        LegacyQuietStateAgrees(g, team, enemy);
        assert NextGameState(g, team, None) == QuietVerdict(g, team, enemy);
      }
  }

  /** The attacked-King branch of both classifications. */
  lemma LegacyCheckStateAgrees(g: Grid, team: Color, k: Pos, attacker: Pos)
    requires WellFormed(g) && InBounds(k) && InBounds(attacker)
    ensures LegacyCheckState(g, team, k, attacker) == CheckState(g, team, k, attacker)
  {
    LegacyCanMoveFromAgrees(g, k);
  }

  /** The safe-King branch of both classifications. */
  lemma LegacyQuietStateAgrees(g: Grid, team: Color, enemy: Color)
    requires WellFormed(g)
    ensures LegacyQuietState(g, team, enemy) == QuietState(g, team, enemy)
  {
    LegacySomeCanMoveAgrees(g, TeamCells(g, team));
  }

  /**
   * The older classification of an attacked King: no error, Check or Checkmate,
   * and Checkmate exactly when the King has no move and no figure of `team` (the
   * King ignored) reaches the first attacker.
   */
  lemma LegacyAttackedKingVerdict(g: Grid, team: Color, k: Pos)
    requires WellFormed(g) && FindKing(g, team) == Some(k)
    requires ReachingEnemyCells(g, k, Opponent(team), None) != []
    ensures var attacker := ReachingEnemyCells(g, k, Opponent(team), None)[0];
      var v := LegacyNextGameState(g, team);
      && v.fault.None? && v.state in {Check, Checkmate}
      && (v.state == Checkmate <==> !CanMoveFrom(g, k) && ReachingEnemyCells(g, attacker, team, Some(k)) == [])
  {
    LegacyNextGameStateAgrees(g, team);
    AttackedKingVerdict(g, team, None, k);
  }

  /**
   * A quiet position with more than one figure on some side never throws in the
   * older classification, and is a Mate exactly when no figure of `team` can move.
   */
  lemma LegacyMateIff(g: Grid, team: Color, k: Pos)
    requires WellFormed(g) && FindKing(g, team) == Some(k)
    requires ReachingEnemyCells(g, k, Opponent(team), None) == []
    requires !LastFigures(g, team, Opponent(team))
    ensures var v := LegacyNextGameState(g, team);
      && v.fault.None? && v.state in {InProcess, Mate}
      && (v.state == Mate <==> forall q | InBounds(q) && HoldsColor(g, q, team) :: !LegacyCanMoveFrom(g, q))
  {
    LegacyNextGameStateAgrees(g, team);
    QuietKing(g, team, None, k);
    MateIff(g, team, Opponent(team));
    forall q | InBounds(q)
      ensures LegacyCanMoveFrom(g, q) == CanMoveFrom(g, q)
    {
      LegacyCanMoveFromAgrees(g, q);
    }
  }

  /** The current state a state of the older manager stands for: the same fields, and no priority target. */
  function Lifted(s: LegacyState): (m: ManagerState)
    ensures m.gameInfo.priorityTargetCell.None?
  {
    ManagerState(s.cells, s.selected, s.lastSelectedCell, GameInfo(s.gameInfo.currentTeamColor, s.gameInfo.gameState, None))
  }

  /**
   * The older `switchPlayer` and the current one, started without a priority
   * target, leave the same board, selection, side to move and game state, and
   * throw the same error.
   */
  lemma LegacySwitchPlayerAgrees(s: LegacyState)
    requires LegacySane(s)
    ensures Sane(Lifted(s))
    ensures var r := LegacySwitchPlayerOutcome(s);
      var c := SwitchPlayerOutcome(Lifted(s));
      && r.fault == c.fault
      && r.state.cells == c.state.cells
      && r.state.selected == c.state.selected && r.state.lastSelectedCell == c.state.lastSelectedCell
      && r.state.gameInfo.currentTeamColor == c.state.gameInfo.currentTeamColor
      && r.state.gameInfo.gameState == c.state.gameInfo.gameState
  {
    var team := if s.gameInfo.currentTeamColor == White then Black else White;
    var v := LegacyNextGameState(s.cells, team);
    var cv := NextGameState(s.cells, team, None);
    LegacyNextGameStateAgrees(s.cells, team);
    var c := SwitchPlayerOutcome(Lifted(s));
    assert c.fault == cv.fault && c.state.gameInfo.currentTeamColor == team;
    if cv.fault.None? {
      assert c.state.gameInfo.gameState == cv.state;
      assert c.state.cells == if IsTerminal(cv.state) then ResetCells(s.cells) else s.cells;
    } else {
      assert c.state.cells == s.cells && c.state.gameInfo.gameState == s.gameInfo.gameState;
    }
  }

  /**
   * The older `switchPlayer` hands the move to the other side, keeps the figures
   * and the selection; its error is the classification's; a terminal state resets
   * every cell.
   */
  lemma LegacySwitchPlayerFlips(s: LegacyState)
    requires LegacySane(s)
    ensures var r := LegacySwitchPlayerOutcome(s);
      var team := Opponent(s.gameInfo.currentTeamColor);
      var v := LegacyNextGameState(s.cells, team);
      && r.state.gameInfo.currentTeamColor == team
      && r.fault == v.fault
      && (r.fault.None? ==> r.state.gameInfo.gameState == v.state)
      && (r.fault.Some? ==> r.state.gameInfo.gameState == s.gameInfo.gameState)
      && r.state.selected == s.selected && r.state.lastSelectedCell == s.lastSelectedCell
      && SameFigures(r.state.cells, s.cells)
      && (r.fault.None? && IsTerminal(v.state) ==> r.state.cells == ResetCells(s.cells))
      && (!(r.fault.None? && IsTerminal(v.state)) ==> r.state.cells == s.cells)
  {
    var team := if s.gameInfo.currentTeamColor == White then Black else White;
    assert team == Opponent(s.gameInfo.currentTeamColor);
  }

  // ---------------------------------------------------------------------------
  // Selecting
  // ---------------------------------------------------------------------------

  /** The King vetting of `setOnMoveAction` depends on the figures only. */
  lemma KingVetoedSameFigures(g: Grid, h: Grid, from: Pos, to: Pos)
    requires WellFormed(g) && WellFormed(h) && InBounds(from) && InBounds(to) && SameFigures(g, h)
    ensures KingVetoed(g, from, to) == KingVetoed(h, from, to)
  {
    var f := At(g, from).figure;
    if f.Some? && f.value.figureName == King {
      EnemyReachesSameFigures(g, h, to, Opponent(f.value.color), Some(from));
    }
  }

  /**
   * The installation seen from one square `q`, when nothing throws: marked when it
   * is on the walk and the older King vetting, on the board `base` the walk
   * started from, lets the move through; untouched otherwise.
   */
  lemma {:induction false} LegacyInstallMovesAt(base: Grid, g: Grid, from: Pos, squares: seq<Pos>, q: Pos)
    requires WellFormed(base) && WellFormed(g) && SameFigures(g, base)
    requires InBounds(from) && AllInBounds(squares) && InBounds(q)
    requires LegacyInstallMoves(g, from, squares).fault.None?
    ensures At(LegacyInstallMoves(g, from, squares).cells, q) ==
      if q in squares && !KingVetoed(base, from, q) then Marked(At(g, q), from, q) else At(g, q)
    decreases |squares|
  {
    if squares != [] {
      var next := squares[0];
      var rest := squares[1..];
      assert q in squares <==> q == next || q in rest;
      var g1 := LegacyInstallMove(g, from, next).value;
      KingVetoedSameFigures(g, base, from, next);
      LegacyInstallMovesAt(base, g1, from, rest, q);
      if q == next && !KingVetoed(base, from, q) {
        assert At(g1, q) == Marked(At(g, q), from, q);
        KingVetoedSameFigures(g1, base, from, q);
        assert q in rest ==> At(LegacyInstallMoves(g1, from, rest).cells, q) == Marked(At(g1, q), from, q);
      } else {
        assert At(g1, q) == At(g, q);
      }
    }
  }

  /** The older callback throws exactly when some square of the walk holds a teammate of `from`. */
  lemma {:induction false} LegacyInstallMovesFault(g: Grid, from: Pos, squares: seq<Pos>)
    requires WellFormed(g) && InBounds(from) && AllInBounds(squares)
    ensures var r := LegacyInstallMoves(g, from, squares);
      && (r.fault.Some? <==> exists i :: 0 <= i < |squares| && IsTeammates(At(g, from), At(g, squares[i])))
      && (r.fault.Some? ==> r.fault == Some(TeammateDestination))
    decreases |squares|
  {
    if squares != [] {
      var next := squares[0];
      if !IsTeammates(At(g, from), At(g, next)) {
        var g1 := LegacyInstallMove(g, from, next).value;
        LegacyInstallMovesFault(g1, from, squares[1..]);
        TeammateAfterFirst(g, g1, from, squares);
      }
    }
  }

  /** Past a first square that holds no teammate, a teammate lies ahead exactly when one lies in the rest, on a board with the same figures. */
  lemma TeammateAfterFirst(g: Grid, g1: Grid, from: Pos, squares: seq<Pos>)
    requires WellFormed(g) && WellFormed(g1) && InBounds(from) && AllInBounds(squares) && squares != []
    requires SameFigures(g1, g) && !IsTeammates(At(g, from), At(g, squares[0]))
    ensures (exists i :: 0 <= i < |squares| && IsTeammates(At(g, from), At(g, squares[i]))) <==>
      (exists i :: 0 <= i < |squares[1..]| && IsTeammates(At(g1, from), At(g1, squares[1..][i])))
  {
    var rest := squares[1..];
    if i :| 0 <= i < |squares| && IsTeammates(At(g, from), At(g, squares[i])) {
      assert IsTeammates(At(g1, from), At(g1, rest[i - 1]));
    }
    if i :| 0 <= i < |rest| && IsTeammates(At(g1, from), At(g1, rest[i])) {
      assert IsTeammates(At(g, from), At(g, squares[i + 1]));
    }
  }

  /**
   * The older `selectCell` on a Default cell holding a figure never throws from
   * `setOnMoveAction` (the walk yields no teammate); its only error is the pawn
   * walk's. When nothing throws the cell is selected and Active, a move is
   * installed on every square of the walk that the King vetting lets through, and
   * every other cell is left as it was. A cell that is not Default, then an empty
   * one, is refused without a change.
   */
  lemma LegacySelectCellExact(s: LegacyState, p: Pos)
    requires LegacySane(s) && InBounds(p)
    ensures var c := At(s.cells, p);
      var r := LegacySelectCellOutcome(s, p);
      && (c.status != CellStatus.Default ==> r == LegacyOutcome(s, Some(NotDefaultStatus)))
      && (c.status == CellStatus.Default && c.figure.None? ==> r == LegacyOutcome(s, Some(MissingFigure)))
      && (c.status == CellStatus.Default && c.figure.Some? ==>
            var g1 := SetStatus(s.cells, p, Active, c.action);
            var w := PatternWalk(g1, p, Opponent(c.figure.value.color), None);
            && r.fault == w.fault
            && (r.fault.None? ==>
                  && r.state.selected && r.state.lastSelectedCell == Some(p) && r.state.gameInfo == s.gameInfo
                  && At(r.state.cells, p).status == Active
                  && forall q | InBounds(q) && q != p :: At(r.state.cells, q) ==
                       if q in w.squares && !KingVetoed(s.cells, p, q) then Marked(At(s.cells, q), p, q) else At(s.cells, q)))
  {
    var c := At(s.cells, p);
    if c.status == CellStatus.Default && c.figure.Some? {
      LegacySelectInstallsAll(s, p);
      LegacySelectMarks(s, p);
    }
  }

  /** The walk of a figure holds no teammate of it, so installing the moves along it never throws. */
  lemma LegacySelectInstallsAll(s: LegacyState, p: Pos)
    requires LegacySane(s) && InBounds(p)
    requires At(s.cells, p).status == CellStatus.Default && At(s.cells, p).figure.Some?
    ensures var c := At(s.cells, p);
      var g1 := SetStatus(s.cells, p, Active, c.action);
      var w := PatternWalk(g1, p, Opponent(c.figure.value.color), None);
      LegacyInstallMoves(g1, p, w.squares).fault.None?
  {
    var c := At(s.cells, p);
    var g1 := SetStatus(s.cells, p, Active, c.action);
    var w := PatternWalk(g1, p, Opponent(c.figure.value.color), None);
    LegacyInstallMovesFault(g1, p, w.squares);
    forall i | 0 <= i < |w.squares|
      ensures !IsTeammates(At(g1, p), At(g1, w.squares[i]))
    {
      assert w.squares[i] in w.squares;
    }
  }

  /**
   * After the moves along the walk are installed, the selected cell is Active and
   * every square of the walk the King vetting lets through holds its move.
   */
  lemma LegacySelectMarks(s: LegacyState, p: Pos)
    requires LegacySane(s) && InBounds(p)
    requires At(s.cells, p).status == CellStatus.Default && At(s.cells, p).figure.Some?
    ensures var c := At(s.cells, p);
      var g1 := SetStatus(s.cells, p, Active, c.action);
      var w := PatternWalk(g1, p, Opponent(c.figure.value.color), None);
      var cells := LegacyInstallMoves(g1, p, w.squares).cells;
      && At(cells, p).status == Active
      && forall q | InBounds(q) && q != p :: At(cells, q) ==
           if q in w.squares && !KingVetoed(s.cells, p, q) then Marked(At(s.cells, q), p, q) else At(s.cells, q)
  {
    var c := At(s.cells, p);
    var g1 := SetStatus(s.cells, p, Active, c.action);
    var enemy := Opponent(c.figure.value.color);
    var w := PatternWalk(g1, p, enemy, None);
    var cells := LegacyInstallMoves(g1, p, w.squares).cells;
    LegacySelectInstallsAll(s, p);
    forall q | InBounds(q)
      ensures At(cells, q) ==
        if q in w.squares && !KingVetoed(s.cells, p, q) then Marked(At(g1, q), p, q) else At(g1, q)
    {
      LegacyInstallMovesAt(s.cells, g1, p, w.squares, q);
      KingVetoedSameFigures(g1, s.cells, p, q);
    }
    assert p !in w.squares by {
      assert !Passable(g1, p, enemy);
    }
  }

  // ---------------------------------------------------------------------------
  // Clicking
  // ---------------------------------------------------------------------------

  /**
   * With nothing selected, a click selects only a Default cell of the side to
   * move: any such figure in the states Default and InProcess, only the King in
   * Check. It never changes the side to move or the game state.
   */
  lemma LegacyIdleClickSelectsOwnFigure(s: LegacyState, p: Pos)
    requires LegacySane(s) && InBounds(p) && !s.selected
    ensures var r := LegacyOnActionOutcome(s, p);
      && r.state.gameInfo == s.gameInfo
      && (r.state.selected ==>
            && LegacyIsCurrentTeamCell(s, p) && r.state.lastSelectedCell == Some(p)
            && (s.gameInfo.gameState in {ChessGameStates.Default, InProcess}
                || (s.gameInfo.gameState == Check && KingAt(s.cells, p))))
  {
    LegacySelectCellExact(s, p);
  }

  /** Once the game is over (Mate, Checkmate or Draw) and nothing is selected, a click changes nothing. */
  lemma LegacyGameOverIgnoresClicks(s: LegacyState, p: Pos)
    requires LegacySane(s) && InBounds(p) && !s.selected && IsTerminal(s.gameInfo.gameState)
    ensures LegacyOnActionOutcome(s, p) == LegacyOutcome(s, None)
  {
  }

  /**
   * A click on the selected cell itself, or on a Default cell while in Check or on
   * a Default cell that is not a teammate of the selected figure, cancels the
   * selection and resets every cell.
   */
  lemma LegacyClickElsewhereCancels(s: LegacyState, p: Pos)
    requires LegacySane(s) && InBounds(p) && s.selected
    requires At(s.cells, p).status == Active
      || (At(s.cells, p).status == CellStatus.Default
          && (s.gameInfo.gameState == Check
              || !(s.lastSelectedCell.Some? && IsTeammates(At(s.cells, s.lastSelectedCell.value), At(s.cells, p)))))
    ensures var r := LegacyOnActionOutcome(s, p);
      && r.fault.None? && !r.state.selected && r.state.gameInfo == s.gameInfo
      && forall q | InBounds(q) :: At(r.state.cells, q) == ResetCell(At(s.cells, q))
  {
    var r := LegacyOnActionOutcome(s, p);
    if At(s.cells, p).status == CellStatus.Default {
      var s1 := s.(cells := ResetCells(s.cells));
      var prev := s.lastSelectedCell;
      if prev.Some? {
        assert At(s1.cells, prev.value).figure == At(s.cells, prev.value).figure;
        assert At(s1.cells, p).figure == At(s.cells, p).figure;
      }
      assert r == LegacyOutcome(LegacyCancel(s1), None);
      forall q | InBounds(q)
        ensures At(r.state.cells, q) == ResetCell(At(s.cells, q))
      {
        assert At(s1.cells, q) == ResetCell(At(s.cells, q));
      }
    }
  }

  /** The action of a cell holding the move `from` -> `to` relocates the figure, then switches the player. */
  lemma LegacyRunActionMoves(s: LegacyState, p: Pos, from: Pos, to: Pos)
    requires LegacySane(s) && InBounds(p) && At(s.cells, p).action == MoveAction(from, to)
    ensures InBounds(from) && InBounds(to) && LegacySane(s.(cells := Relocate(s.cells, from, to)))
    ensures LegacyRunActionOutcome(s, p) == LegacySwitchPlayerOutcome(s.(cells := Relocate(s.cells, from, to)))
  {
    assert InBounds(At(s.cells, p).action.from) && InBounds(At(s.cells, p).action.to);
    RelocateKeepsActions(s.cells, from, to);
  }

  /**
   * Playing the move installed on `p` (`cell.action()` and what follows it in the
   * older `onAction`): the figure goes from `from` to `to`, the other side is to
   * move, and the error is the classification's.
   */
  lemma LegacyPlayMoves(s: LegacyState, p: Pos, from: Pos, to: Pos)
    requires LegacySane(s) && InBounds(p) && At(s.cells, p).action == MoveAction(from, to)
    ensures InBounds(from) && InBounds(to)
    ensures var r := LegacyPlayOutcome(s, p);
      var moved := Relocate(s.cells, from, to);
      var team := Opponent(s.gameInfo.currentTeamColor);
      var v := LegacyNextGameState(moved, team);
      && r.state.gameInfo.currentTeamColor == team
      && SameFigures(r.state.cells, moved)
      && r.fault == v.fault
      && (r.fault.None? ==> r.state.gameInfo.gameState == v.state)
  {
    LegacyRunActionMoves(s, p, from, to);
    var t := s.(cells := Relocate(s.cells, from, to));
    var team := Opponent(s.gameInfo.currentTeamColor);
    var v := LegacyNextGameState(t.cells, team);
    if v.fault.None? && v.state == Check {
      LegacyCheckKingReady(t);
      var s1 := LegacyCancel(LegacySwitchPlayerOutcome(t).state);
      LegacyKingSelectable(s1, FindKing(t.cells, team).value);
    } else {
      LegacySwitchPlayerFlips(t);
    }
  }

  /**
   * After a move that leaves the other side in Check, that side's King is
   * selected at once.
   */
  lemma LegacyPlayCheckSelectsKing(s: LegacyState, p: Pos, from: Pos, to: Pos)
    requires LegacySane(s) && InBounds(p) && At(s.cells, p).action == MoveAction(from, to)
    requires InBounds(from) && InBounds(to)
    requires var v := LegacyNextGameState(Relocate(s.cells, from, to), Opponent(s.gameInfo.currentTeamColor));
      v.fault.None? && v.state == Check
    ensures var r := LegacyPlayOutcome(s, p);
      && r.fault.None? && r.state.selected
      && r.state.lastSelectedCell == FindKing(Relocate(s.cells, from, to), Opponent(s.gameInfo.currentTeamColor))
  {
    LegacyRunActionMoves(s, p, from, to);
    var t := s.(cells := Relocate(s.cells, from, to));
    LegacyCheckKingReady(t);
    var s1 := LegacyCancel(LegacySwitchPlayerOutcome(t).state);
    var k := FindKing(t.cells, Opponent(s.gameInfo.currentTeamColor)).value;
    LegacyKingSelectable(s1, k);
  }

  /**
   * Once `switchPlayer` has put the side to move in Check and the selection is
   * cancelled, that side's King stands on a Default cell, found where it was
   * before the cancel.
   */
  lemma LegacyCheckKingReady(t: LegacyState)
    requires LegacySane(t)
    requires var v := LegacyNextGameState(t.cells, Opponent(t.gameInfo.currentTeamColor));
      v.fault.None? && v.state == Check
    ensures var s1 := LegacyCancel(LegacySwitchPlayerOutcome(t).state);
      var team := Opponent(t.gameInfo.currentTeamColor);
      && LegacySwitchPlayerOutcome(t).fault.None?
      && s1.gameInfo.gameState == Check && s1.gameInfo.currentTeamColor == team
      && FindKing(s1.cells, team) == FindKing(t.cells, team)
      && FindKing(t.cells, team).Some?
      && KingAt(s1.cells, FindKing(t.cells, team).value)
      && At(s1.cells, FindKing(t.cells, team).value).status == CellStatus.Default
  {
    var team := Opponent(t.gameInfo.currentTeamColor);
    LegacySwitchToCheck(t);
    CancelKeepsKing(t.(gameInfo := LegacyInfo(team, Check)), team);
  }

  /** When the other side's verdict is a plain Check, `switchPlayer` only hands it the move and records Check. */
  lemma LegacySwitchToCheck(t: LegacyState)
    requires LegacySane(t)
    requires var v := LegacyNextGameState(t.cells, Opponent(t.gameInfo.currentTeamColor));
      v.fault.None? && v.state == Check
    ensures var team := Opponent(t.gameInfo.currentTeamColor);
      && LegacySwitchPlayerOutcome(t) == LegacyOutcome(t.(gameInfo := LegacyInfo(team, Check)), None)
      && FindKing(t.cells, team).Some?
  {
    var team := if t.gameInfo.currentTeamColor == White then Black else White;
    assert team == Opponent(t.gameInfo.currentTeamColor);
    LegacyVerdictHasKing(t.cells, team);
    LegacySwitchPlayerFlips(t);
    var r := LegacySwitchPlayerOutcome(t);
    assert r.state == t.(gameInfo := LegacyInfo(team, Check));
  }

  /** A verdict without an error comes from a board holding the King. */
  lemma LegacyVerdictHasKing(g: Grid, team: Color)
    requires WellFormed(g) && LegacyNextGameState(g, team).fault.None?
    ensures FindKing(g, team).Some?
  {
  }

  /** `cancelSelect` leaves a King where `findKingCell` finds it, on a Default cell. */
  lemma CancelKeepsKing(u: LegacyState, team: Color)
    requires LegacySane(u) && FindKing(u.cells, team).Some?
    ensures var s1 := LegacyCancel(u);
      && FindKing(s1.cells, team) == FindKing(u.cells, team)
      && KingAt(s1.cells, FindKing(u.cells, team).value)
      && At(s1.cells, FindKing(u.cells, team).value).status == CellStatus.Default
  {
    var s1 := LegacyCancel(u);
    FindKingSameFigures(s1.cells, u.cells, team);
    var k := FindKing(u.cells, team).value;
    assert At(s1.cells, k) == ResetCell(At(u.cells, k));
  }

  /**
   * After a move that does not leave the other side in Check, nothing is selected
   * and every cell is Default with no action.
   */
  lemma LegacyPlayQuietCancels(s: LegacyState, p: Pos, from: Pos, to: Pos)
    requires LegacySane(s) && InBounds(p) && At(s.cells, p).action == MoveAction(from, to)
    requires InBounds(from) && InBounds(to)
    requires var v := LegacyNextGameState(Relocate(s.cells, from, to), Opponent(s.gameInfo.currentTeamColor));
      v.fault.None? && v.state != Check
    ensures var r := LegacyPlayOutcome(s, p);
      && r.fault.None? && !r.state.selected
      && forall q | InBounds(q) :: At(r.state.cells, q).status == CellStatus.Default && At(r.state.cells, q).action == NoAction
  {
    LegacyRunActionMoves(s, p, from, to);
    LegacySwitchPlayerFlips(s.(cells := Relocate(s.cells, from, to)));
  }

  /** A click, while a figure is selected, on a square where a move is installed plays it (see `LegacyPlayMoves`). */
  lemma LegacyMoveClickPlays(s: LegacyState, p: Pos)
    requires LegacySane(s) && InBounds(p) && s.selected
    requires At(s.cells, p).status in {OnWay, Target}
    ensures LegacyOnActionOutcome(s, p) == LegacyPlayOutcome(s, p)
  {
  }

  /**
   * A click on an OnWay or Target cell whose action slot is empty, as the older
   * program leaves every slot that `onAction` runs: no figure moves and the side to
   * move and the game state stay as they were; the selection is cancelled, and in
   * Check the side that was to move gets its own King selected again.
   */
  lemma LegacyPlayAsWritten(s: LegacyState, p: Pos)
    requires LegacySane(s) && InBounds(p) && At(s.cells, p).action == NoAction
    ensures var r := LegacyPlayOutcome(s, p);
      var k := FindKing(s.cells, s.gameInfo.currentTeamColor);
      && r.state.gameInfo == s.gameInfo
      && SameFigures(r.state.cells, s.cells)
      && (s.gameInfo.gameState != Check ==> r == LegacyOutcome(LegacyCancel(s), None))
      && (s.gameInfo.gameState == Check && k.None? ==> r.fault == Some(MissingKing))
      && (s.gameInfo.gameState == Check && k.Some? ==> r.fault.None? && r.state.selected && r.state.lastSelectedCell == k)
  {
    var s1 := LegacyCancel(s);
    var team := s.gameInfo.currentTeamColor;
    assert SameFigures(s1.cells, s.cells);
    FindKingSameFigures(s1.cells, s.cells, team);
    if s.gameInfo.gameState == Check && FindKing(s.cells, team).Some? {
      CancelKeepsKing(s, team);
      LegacyKingSelectable(s1, FindKing(s.cells, team).value);
    }
  }

  /**
   * Selecting a King on a Default cell never fails: its walk cannot throw and
   * yields no teammate. The King becomes the selected cell; the figures and the
   * game information stay as they were.
   */
  lemma LegacyKingSelectable(t: LegacyState, k: Pos)
    requires LegacySane(t) && InBounds(k) && KingAt(t.cells, k) && At(t.cells, k).status == CellStatus.Default
    ensures var r := LegacySelectCellOutcome(t, k);
      && r.fault.None? && r.state.selected && r.state.lastSelectedCell == Some(k) && r.state.gameInfo == t.gameInfo
      && SameFigures(r.state.cells, t.cells)
  {
    LegacySelectCellExact(t, k);
    var c := At(t.cells, k);
    var g1 := SetStatus(t.cells, k, Active, c.action);
    assert PatternWalk(g1, k, Opponent(c.figure.value.color), None).fault.None?;
  }
}
