/**
 * The end-of-game positions of the engine's own test suite
 * (__tests__/endgameChecking.ts). Each test starts from the clear 8 x 8 board,
 * puts a few figures on it, lets White make one move, and asserts the state the
 * current `getNextGameState` gives Black. Here each position is the clear board
 * with a map of figures, the move is `Relocate`, and each lemma states the
 * verdict: the state, the priority target and the absence of an error.
 */
module EndgameScenarios {
  import opened ChessModel
  import opened MovesManager
  import opened BoardFactory
  import opened BoardManager
  import opened ManagerProperties

  /** The cell at `q`; the position facts below are stated on it so that they are used only where asked for. */
  function CellOn(g: Grid, q: Pos): Cell
    requires WellFormed(g) && InBounds(q)
  {
    At(g, q)
  }

  /** The board is the clear board with the figures of `m` on their squares. */
  ghost predicate Holds(g: Grid, m: map<Pos, Figure>)
    requires WellFormed(g)
  {
    forall q {:trigger CellOn(g, q)} | InBounds(q) ::
      CellOn(g, q) == NewCell(Tint(q), q.row, q.col).(figure := if q in m then Some(m[q]) else None)
  }

  /** The clear board of the tests' `getNewBoard` stand-in, with the figures of `m` put on their squares. */
  function Placed(m: map<Pos, Figure>): (g: Grid)
    ensures WellFormed(g) && Holds(g, m)
  {
    seq(Size, i => seq(Size, j => NewCell(Tint(Pos(i, j)), i, j).(figure := if Pos(i, j) in m then Some(m[Pos(i, j)]) else None)))
  }

  /** What a board described by `m` holds on `q`. */
  lemma Occupant(g: Grid, m: map<Pos, Figure>, q: Pos)
    requires WellFormed(g) && Holds(g, m) && InBounds(q)
    ensures At(g, q) == NewCell(Tint(q), q.row, q.col).(figure := if q in m then Some(m[q]) else None)
  {
    assert CellOn(g, q) == At(g, q);
  }

  /** A figure of colour `c` on a board described by `m` is one of the figures of `m`. */
  lemma Colored(g: Grid, m: map<Pos, Figure>, q: Pos, c: Color)
    requires WellFormed(g) && Holds(g, m) && InBounds(q) && HoldsColor(g, q, c)
    ensures q in m && m[q].color == c
  {
    Occupant(g, m, q);
  }

  /** `m` places nothing on the squares between `p` and `n` steps along `d`, but for the ignored cell. */
  predicate ClearPlaced(m: map<Pos, Figure>, p: Pos, d: Offset, n: int, ignored: Option<Pos>)
    decreases n
  {
    n <= 1 ||
      (&& ClearPlaced(m, p, d, n - 1, ignored)
       && InBounds(Along(p, d, n - 1))
       && (Along(p, d, n - 1) !in m || ignored == Some(Along(p, d, n - 1))))
  }

  /** Each square of a stretch `m` leaves clear is on the board and empty or ignored. */
  lemma {:induction false} ClearPlacedAt(m: map<Pos, Figure>, p: Pos, d: Offset, n: int, ignored: Option<Pos>, j: int)
    requires ClearPlaced(m, p, d, n, ignored) && 1 <= j < n
    ensures InBounds(Along(p, d, j)) && (Along(p, d, j) !in m || ignored == Some(Along(p, d, j)))
    decreases n
  {
    if j < n - 1 {
      ClearPlacedAt(m, p, d, n - 1, ignored, j);
    }
  }

  /** The squares between `p` and `n` steps along `d` are clear when `m` puts nothing there but the ignored cell. */
  lemma ClearBetween(g: Grid, m: map<Pos, Figure>, p: Pos, d: Offset, n: int, ignored: Option<Pos>)
    requires WellFormed(g) && Holds(g, m) && ClearPlaced(m, p, d, n, ignored)
    ensures ClearUpTo(g, p, d, n, ignored)
  {
    forall j | 1 <= j < n
      ensures InBounds(Along(p, d, j)) && (IsEmpty(g, Along(p, d, j)) || ignored == Some(Along(p, d, j)))
    {
      ClearPlacedAt(m, p, d, n, ignored, j);
      Occupant(g, m, Along(p, d, j));
    }
  }

  /** The tests' stand-in builds the factory's clear board: nothing placed is the clear board. */
  lemma PlacedNothingIsClear()
    ensures Placed(map[]) == ClearGrid()
  {
    forall q | InBounds(q)
      ensures At(Placed(map[]), q) == At(ClearGrid(), q)
    {
      Occupant(Placed(map[]), map[], q);
    }
    GridExtensionality(Placed(map[]), ClearGrid());
  }

  /** Moving a figure other than a Pawn to an empty square moves its entry in the map of figures. */
  lemma RelocatePlaced(m: map<Pos, Figure>, from: Pos, to: Pos)
    requires InBounds(from) && InBounds(to) && from != to
    requires from in m && to !in m && m[from].figureName != Pawn
    ensures Relocate(Placed(m), from, to) == Placed((m - {from})[to := m[from]])
  {
    var moved := Relocate(Placed(m), from, to);
    var after := Placed((m - {from})[to := m[from]]);
    forall q | InBounds(q)
      ensures At(moved, q) == At(after, q)
    {
      Occupant(Placed(m), m, q);
      Occupant(after, (m - {from})[to := m[from]], q);
      if q == to {
        assert Landed(Some(m[from])) == Some(m[from]);
      }
    }
    GridExtensionality(moved, after);
  }

  // ---------------------------------------------------------------------------
  // Reading verdicts off a position
  // ---------------------------------------------------------------------------

  /** A King of `c` at `k` and nowhere else is the one `findKingCell` finds. */
  lemma OnlyKing(g: Grid, c: Color, k: Pos)
    requires WellFormed(g) && InBounds(k) && IsKingOf(g, k, c)
    requires forall q | InBounds(q) && IsKingOf(g, q, c) :: q == k
    ensures FindKing(g, c) == Some(k)
  {
  }

  /** A square `n` steps from `p` along a direction of `dirs` and seen through a clear stretch is seen along `dirs`. */
  lemma Seen(g: Grid, p: Pos, q: Pos, dirs: seq<Offset>, ignored: Option<Pos>, i: int, n: int)
    requires WellFormed(g) && 0 <= i < |dirs| && n >= 1 && q == Along(p, dirs[i], n)
    requires ClearUpTo(g, p, dirs[i], n, ignored)
    ensures SeesAlong(g, p, q, dirs, ignored)
  {
  }

  /** Whatever is seen along a straight line shares a row or a column with `p`. */
  lemma StraightLine(g: Grid, p: Pos, q: Pos, ignored: Option<Pos>)
    requires WellFormed(g) && SeesAlong(g, p, q, StraightDirections, ignored)
    ensures q != p && (q.row == p.row || q.col == p.col)
  {
    var i, n :| 0 <= i < |StraightDirections| && n >= 1 && q == Along(p, StraightDirections[i], n)
      && ClearUpTo(g, p, StraightDirections[i], n, ignored);
  }

  /** Whatever is seen along a diagonal is as many rows as columns away from `p`. */
  lemma DiagonalLine(g: Grid, p: Pos, q: Pos, ignored: Option<Pos>)
    requires WellFormed(g) && SeesAlong(g, p, q, DiagonalDirections, ignored)
    ensures q != p && (q.row - p.row == q.col - p.col || q.row - p.row == p.col - q.col)
  {
    var i, n :| 0 <= i < |DiagonalDirections| && n >= 1 && q == Along(p, DiagonalDirections[i], n)
      && ClearUpTo(g, p, DiagonalDirections[i], n, ignored);
  }

  /**
   * A figure of kind `kind` and colour `enemy` on `q` has no way to reach `p`:
   * off every line it attacks along, not a King next to `p` (unless ignored),
   * not a Knight a jump away, and not on a pawn square of `p`.
   */
  predicate OffLines(kind: FigureName, q: Pos, p: Pos, enemy: Color, ignored: Option<Pos>) {
    && (kind in {Rook, Queen} ==> q == p || (q.row != p.row && q.col != p.col))
    && (kind in {Bishop, Queen} ==> q == p || (q.row - p.row != q.col - p.col && q.row - p.row != p.col - q.col))
    && (kind == King ==> !Adjacent(p, q) || ignored == Some(q))
    && (kind == Knight ==> !KnightJump(p, q))
    && q !in PawnAttackSquares(p, enemy)
  }

  /** A figure placed off every line to `p` does not reach `p`. */
  lemma Unreaching(g: Grid, q: Pos, p: Pos, enemy: Color, ignored: Option<Pos>)
    requires WellFormed(g) && InBounds(q) && HoldsColor(g, q, enemy)
    requires OffLines(At(g, q).figure.value.figureName, q, p, enemy, ignored)
    ensures !Reaches(g, q, p, enemy, ignored)
  {
    if ReachesStraight(g, q, p, ignored) {
      StraightLine(g, p, q, ignored);
    }
    if ReachesDiagonal(g, q, p, ignored) {
      DiagonalLine(g, p, q, ignored);
    }
  }

  /** Every `enemy` figure of `m` but the one on `except` is placed off the lines to `p`: none of them reaches `p`. */
  lemma PlacedUnreaching(g: Grid, m: map<Pos, Figure>, p: Pos, enemy: Color, ignored: Option<Pos>, except: Option<Pos>)
    requires WellFormed(g) && Holds(g, m)
    requires forall q | q in m && m[q].color == enemy && except != Some(q) :: OffLines(m[q].figureName, q, p, enemy, ignored)
    ensures forall q | InBounds(q) && HoldsColor(g, q, enemy) && except != Some(q) :: !Reaches(g, q, p, enemy, ignored)
  {
    forall q | InBounds(q) && HoldsColor(g, q, enemy) && except != Some(q)
      ensures !Reaches(g, q, p, enemy, ignored)
    {
      Occupant(g, m, q);
      Unreaching(g, q, p, enemy, ignored);
    }
  }

  /** The King of `c` that `m` places on `k`, and no other, is the one `findKingCell` finds. */
  lemma PlacedKing(g: Grid, m: map<Pos, Figure>, c: Color, k: Pos)
    requires WellFormed(g) && Holds(g, m) && InBounds(k)
    requires k in m && m[k].figureName == King && m[k].color == c
    requires forall q | q in m && m[q].figureName == King && m[q].color == c :: q == k
    ensures FindKing(g, c) == Some(k)
  {
    forall q | InBounds(q) && IsKingOf(g, q, c)
      ensures q == k
    {
      Occupant(g, m, q);
    }
    Occupant(g, m, k);
    OnlyKing(g, c, k);
  }

  /** An `enemy` figure that reaches `p` makes the search around `p` non-empty. */
  lemma Hit(g: Grid, q: Pos, p: Pos, enemy: Color, ignored: Option<Pos>)
    requires WellFormed(g) && InBounds(p) && InBounds(q) && HoldsColor(g, q, enemy)
    requires Reaches(g, q, p, enemy, ignored)
    ensures q in ReachingEnemyCells(g, p, enemy, ignored)
  {
    ReachingEnemyCellsIff(g, p, enemy, ignored, q);
  }

  /** No `enemy` figure reaching `p` leaves the search around `p` empty. */
  lemma NoHit(g: Grid, p: Pos, enemy: Color, ignored: Option<Pos>)
    requires WellFormed(g) && InBounds(p)
    requires forall q | InBounds(q) && HoldsColor(g, q, enemy) :: !Reaches(g, q, p, enemy, ignored)
    ensures ReachingEnemyCells(g, p, enemy, ignored) == []
  {
    var r := ReachingEnemyCells(g, p, enemy, ignored);
    if r != [] {
      ReachingEnemyCellsIff(g, p, enemy, ignored, r[0]);
    }
  }

  /** When `a` is the only `enemy` figure reaching `p`, it is the first one found. */
  lemma OnlyHit(g: Grid, a: Pos, p: Pos, enemy: Color, ignored: Option<Pos>)
    requires WellFormed(g) && InBounds(p)
    requires a in ReachingEnemyCells(g, p, enemy, ignored)
    requires forall q | InBounds(q) && HoldsColor(g, q, enemy) && q != a :: !Reaches(g, q, p, enemy, ignored)
    ensures ReachingEnemyCells(g, p, enemy, ignored) != [] && ReachingEnemyCells(g, p, enemy, ignored)[0] == a
  {
    var r := ReachingEnemyCells(g, p, enemy, ignored);
    ReachingEnemyCellsIff(g, p, enemy, ignored, r[0]);
  }

  /** A Rook or Queen `n` steps away along a straight direction `d`, with a clear stretch between, reaches `p`. */
  lemma StraightHit(g: Grid, q: Pos, p: Pos, enemy: Color, ignored: Option<Pos>, d: Offset, n: int)
    requires WellFormed(g) && InBounds(p) && InBounds(q) && HoldsKind(g, q, enemy, {Rook, Queen})
    requires d in StraightDirections && n >= 1 && q == Along(p, d, n)
    requires ClearUpTo(g, p, d, n, ignored) && ignored != Some(q)
    ensures q in ReachingEnemyCells(g, p, enemy, ignored)
  {
    var i :| 0 <= i < |StraightDirections| && StraightDirections[i] == d;
    Seen(g, p, q, StraightDirections, ignored, i, n);
    Hit(g, q, p, enemy, ignored);
  }

  /** A Bishop or Queen `n` steps away along a diagonal `d`, with a clear stretch between, reaches `p`. */
  lemma DiagonalHit(g: Grid, q: Pos, p: Pos, enemy: Color, ignored: Option<Pos>, d: Offset, n: int)
    requires WellFormed(g) && InBounds(p) && InBounds(q) && HoldsKind(g, q, enemy, {Bishop, Queen})
    requires d in DiagonalDirections && n >= 1 && q == Along(p, d, n)
    requires ClearUpTo(g, p, d, n, ignored) && ignored != Some(q)
    ensures q in ReachingEnemyCells(g, p, enemy, ignored)
  {
    var i :| 0 <= i < |DiagonalDirections| && DiagonalDirections[i] == d;
    Seen(g, p, q, DiagonalDirections, ignored, i, n);
    Hit(g, q, p, enemy, ignored);
  }

  /**
   * The `enemy` Rook or Queen on `a` stands `n` steps from `k` along the straight
   * direction `d`, nothing stands between them, and no other `enemy` figure
   * reaches `k`.
   */
  ghost predicate StraightCheck(g: Grid, a: Pos, k: Pos, enemy: Color, d: Offset, n: int)
    requires WellFormed(g)
  {
    && InBounds(k) && InBounds(a) && HoldsKind(g, a, enemy, {Rook, Queen})
    && d in StraightDirections && n >= 1 && a == Along(k, d, n)
    && ClearUpTo(g, k, d, n, None)
    && forall q | InBounds(q) && HoldsColor(g, q, enemy) && q != a :: !Reaches(g, q, k, enemy, None)
  }

  /**
   * A King checked by a lone Rook or Queen on a straight line: the attacker is
   * the priority target, and the state is Check exactly when the King can move
   * or an ally (the King ignored) reaches the attacker.
   */
  lemma StraightCheckVerdict(g: Grid, team: Color, k: Pos, a: Pos, d: Offset, n: int)
    requires WellFormed(g) && FindKing(g, team) == Some(k) && StraightCheck(g, a, k, Opponent(team), d, n)
    ensures NextGameState(g, team, None) ==
      Verdict(if CanMoveFrom(g, k) || ReachingEnemyCells(g, a, team, Some(k)) != [] then Check else Checkmate, Some(a), None)
  {
    StraightHit(g, a, k, Opponent(team), None, d, n);
    OnlyHit(g, a, k, Opponent(team), None);
    AttackedKingVerdict(g, team, None, k);
  }

  /** A King next to `p`, not ignored, reaches `p`. */
  lemma KingHit(g: Grid, q: Pos, p: Pos, enemy: Color, ignored: Option<Pos>)
    requires WellFormed(g) && InBounds(p) && InBounds(q) && HoldsKind(g, q, enemy, {King})
    requires Adjacent(p, q) && ignored != Some(q)
    ensures q in ReachingEnemyCells(g, p, enemy, ignored)
  {
    Hit(g, q, p, enemy, ignored);
  }

  /** A King every one of whose neighbouring squares is reached (its own square ignored) cannot move. */
  lemma KingStuck(g: Grid, k: Pos)
    requires WellFormed(g) && InBounds(k) && At(g, k).figure.Some? && At(g, k).figure.value.figureName == King
    requires forall q | InBounds(q) && Adjacent(k, q) ::
      ReachingEnemyCells(g, q, Opponent(At(g, k).figure.value.color), Some(k)) != []
    ensures !CanMoveFrom(g, k)
  {
    CanMoveFromKingIff(g, k);
  }

  /** A King with a neighbouring square that is empty or hostile and reached by nothing (its own square ignored) can move. */
  lemma KingFree(g: Grid, k: Pos, q: Pos)
    requires WellFormed(g) && InBounds(k) && At(g, k).figure.Some? && At(g, k).figure.value.figureName == King
    requires InBounds(q) && Adjacent(k, q) && Passable(g, q, Opponent(At(g, k).figure.value.color))
    requires ReachingEnemyCells(g, q, Opponent(At(g, k).figure.value.color), Some(k)) == []
    ensures CanMoveFrom(g, k)
  {
    SafeStepLetsKingMove(g, k, q);
  }

  /**
   * The King of `team` at `k`, first attacked by `a`, that cannot move and whose
   * allies (the King ignored) do not reach `a`: Checkmate, with `a` the target.
   */
  lemma CheckmateVerdict(g: Grid, team: Color, k: Pos, a: Pos)
    requires WellFormed(g) && FindKing(g, team) == Some(k)
    requires ReachingEnemyCells(g, k, Opponent(team), None) != [] && ReachingEnemyCells(g, k, Opponent(team), None)[0] == a
    requires !CanMoveFrom(g, k) && ReachingEnemyCells(g, a, team, Some(k)) == []
    ensures NextGameState(g, team, None) == Verdict(Checkmate, Some(a), None)
  {
    AttackedKingVerdict(g, team, None, k);
  }

  /** The King of `team` at `k`, first attacked by `a`, that can move or whose allies reach `a`: Check, with `a` the target. */
  lemma CheckVerdictOf(g: Grid, team: Color, k: Pos, a: Pos)
    requires WellFormed(g) && FindKing(g, team) == Some(k)
    requires ReachingEnemyCells(g, k, Opponent(team), None) != [] && ReachingEnemyCells(g, k, Opponent(team), None)[0] == a
    requires CanMoveFrom(g, k) || ReachingEnemyCells(g, a, team, Some(k)) != []
    ensures NextGameState(g, team, None) == Verdict(Check, Some(a), None)
  {
    AttackedKingVerdict(g, team, None, k);
  }

  /** Figures of `c` on two distinct squares: `c` is not down to its last figure. */
  lemma TwoFigures(g: Grid, c: Color, a: Pos, b: Pos)
    requires WellFormed(g) && InBounds(a) && InBounds(b) && a != b
    requires HoldsColor(g, a, c) && HoldsColor(g, b, c)
    ensures |TeamCells(g, c)| != 1
  {
    TeamCellsIff(g, c, a);
    TeamCellsIff(g, c, b);
  }

  /**
   * The King of `team` at `k` is not attacked, the other side has two figures or
   * more, and no figure of `team` can move: Mate, with no target.
   */
  lemma QuietMate(g: Grid, team: Color, k: Pos, a: Pos, b: Pos)
    requires WellFormed(g) && FindKing(g, team) == Some(k) && ReachingEnemyCells(g, k, Opponent(team), None) == []
    requires InBounds(a) && InBounds(b) && a != b && HoldsColor(g, a, Opponent(team)) && HoldsColor(g, b, Opponent(team))
    requires forall q | InBounds(q) && HoldsColor(g, q, team) :: !CanMoveFrom(g, q)
    ensures NextGameState(g, team, None) == Verdict(Mate, None, None)
  {
    QuietKing(g, team, None, k);
    TwoFigures(g, Opponent(team), a, b);
    MateIff(g, team, Opponent(team));
  }

  /**
   * The King of `team` at `k` is not attacked, the other side has two figures or
   * more, and the figure of `team` on `p` can move: InProcess, with no target.
   */
  lemma QuietInProcess(g: Grid, team: Color, k: Pos, a: Pos, b: Pos, p: Pos)
    requires WellFormed(g) && FindKing(g, team) == Some(k) && ReachingEnemyCells(g, k, Opponent(team), None) == []
    requires InBounds(a) && InBounds(b) && a != b && HoldsColor(g, a, Opponent(team)) && HoldsColor(g, b, Opponent(team))
    requires InBounds(p) && HoldsColor(g, p, team) && CanMoveFrom(g, p)
    ensures NextGameState(g, team, None) == Verdict(InProcess, None, None)
  {
    QuietKing(g, team, None, k);
    TwoFigures(g, Opponent(team), a, b);
    MateIff(g, team, Opponent(team));
  }

  /**
   * `m` places a Rook or Queen of `enemy` on `q`, `n` steps from `p` along the
   * straight direction `d`, and nothing between them but the ignored cell.
   */
  predicate PlacedStraight(m: map<Pos, Figure>, q: Pos, p: Pos, enemy: Color, ignored: Option<Pos>, d: Offset, n: int) {
    && InBounds(p) && InBounds(q)
    && q in m && m[q].color == enemy && m[q].figureName in {Rook, Queen}
    && d in StraightDirections && n >= 1 && q == Along(p, d, n) && ignored != Some(q)
    && ClearPlaced(m, p, d, n, ignored)
  }

  /** A Rook or Queen placed on a clear straight line to `p` reaches `p`. */
  lemma PlacedStraightHit(g: Grid, m: map<Pos, Figure>, q: Pos, p: Pos, enemy: Color, ignored: Option<Pos>, d: Offset, n: int)
    requires WellFormed(g) && Holds(g, m) && PlacedStraight(m, q, p, enemy, ignored, d, n)
    ensures q in ReachingEnemyCells(g, p, enemy, ignored)
  {
    Occupant(g, m, q);
    ClearBetween(g, m, p, d, n, ignored);
    StraightHit(g, q, p, enemy, ignored, d, n);
  }

  /** A King of `enemy` that `m` places next to `p`, not ignored, reaches `p`. */
  lemma PlacedKingHit(g: Grid, m: map<Pos, Figure>, q: Pos, p: Pos, enemy: Color, ignored: Option<Pos>)
    requires WellFormed(g) && Holds(g, m) && InBounds(p) && InBounds(q)
    requires q in m && m[q].color == enemy && m[q].figureName == King
    requires Adjacent(p, q) && ignored != Some(q)
    ensures q in ReachingEnemyCells(g, p, enemy, ignored)
  {
    Occupant(g, m, q);
    KingHit(g, q, p, enemy, ignored);
  }

  /** When `m` places every `enemy` figure off the lines to `p`, the search around `p` is empty. */
  lemma PlacedNoHit(g: Grid, m: map<Pos, Figure>, p: Pos, enemy: Color, ignored: Option<Pos>)
    requires WellFormed(g) && Holds(g, m) && InBounds(p)
    requires forall q | q in m && m[q].color == enemy :: OffLines(m[q].figureName, q, p, enemy, ignored)
    ensures ReachingEnemyCells(g, p, enemy, ignored) == []
  {
    PlacedUnreaching(g, m, p, enemy, ignored, None);
    NoHit(g, p, enemy, ignored);
  }

  /**
   * A King that `m` places on `k` next to a square `q` that is empty or hostile
   * and off the lines of every hostile figure (the King's square ignored) can move.
   */
  lemma PlacedKingFree(g: Grid, m: map<Pos, Figure>, k: Pos, q: Pos)
    requires WellFormed(g) && Holds(g, m) && InBounds(k) && InBounds(q) && Adjacent(k, q)
    requires k in m && m[k].figureName == King
    requires q !in m || m[q].color == Opponent(m[k].color)
    requires forall r | r in m && m[r].color == Opponent(m[k].color) ::
      OffLines(m[r].figureName, r, q, Opponent(m[k].color), Some(k))
    ensures CanMoveFrom(g, k)
  {
    Occupant(g, m, k);
    Occupant(g, m, q);
    PlacedNoHit(g, m, q, Opponent(m[k].color), Some(k));
    KingFree(g, k, q);
  }

  /**
   * The King of `team` on `k`, checked by a lone Rook or Queen on `a`, when an
   * ally placed on `b` reaches `a` along a clear straight line: Check, with `a`
   * the target, whether or not the King can move.
   */
  lemma AllyCheckVerdict(g: Grid, m: map<Pos, Figure>, team: Color, k: Pos, a: Pos, d: Offset, n: int, b: Pos, e: Offset, l: int)
    requires WellFormed(g) && Holds(g, m) && FindKing(g, team) == Some(k) && StraightCheck(g, a, k, Opponent(team), d, n)
    requires PlacedStraight(m, b, a, team, Some(k), e, l)
    ensures NextGameState(g, team, None) == Verdict(Check, Some(a), None)
  {
    PlacedStraightHit(g, m, b, a, team, Some(k), e, l);
    StraightCheckVerdict(g, team, k, a, d, n);
  }

  /**
   * `m` places the only King of `team` on `k`, every figure against it off the
   * lines to `k`, and two of those figures on `a` and `b`.
   */
  predicate QuietLayout(m: map<Pos, Figure>, team: Color, k: Pos, a: Pos, b: Pos) {
    && InBounds(k) && InBounds(a) && InBounds(b) && a != b
    && k in m && m[k].figureName == King && m[k].color == team
    && (forall q | q in m && m[q].figureName == King && m[q].color == team :: q == k)
    && (forall q | q in m && m[q].color == Opponent(team) :: OffLines(m[q].figureName, q, k, Opponent(team), None))
    && a in m && b in m && m[a].color == Opponent(team) && m[b].color == Opponent(team)
  }

  /**
   * A quiet layout whose King is the only figure of its side and cannot move:
   * Mate, with no target.
   */
  lemma PlacedQuietMate(g: Grid, m: map<Pos, Figure>, team: Color, k: Pos, a: Pos, b: Pos)
    requires WellFormed(g) && Holds(g, m) && QuietLayout(m, team, k, a, b)
    requires forall q | q in m && m[q].color == team :: q == k
    requires !CanMoveFrom(g, k)
    ensures NextGameState(g, team, None) == Verdict(Mate, None, None)
  {
    PlacedKing(g, m, team, k);
    PlacedNoHit(g, m, k, Opponent(team), None);
    Occupant(g, m, a);
    Occupant(g, m, b);
    forall q | InBounds(q) && HoldsColor(g, q, team)
      ensures !CanMoveFrom(g, q)
    {
      Occupant(g, m, q);
    }
    QuietMate(g, team, k, a, b);
  }

  /** A quiet layout whose King can move: the game goes on, with no target. */
  lemma PlacedQuietInProcess(g: Grid, m: map<Pos, Figure>, team: Color, k: Pos, a: Pos, b: Pos)
    requires WellFormed(g) && Holds(g, m) && QuietLayout(m, team, k, a, b)
    requires CanMoveFrom(g, k)
    ensures NextGameState(g, team, None) == Verdict(InProcess, None, None)
  {
    PlacedKing(g, m, team, k);
    PlacedNoHit(g, m, k, Opponent(team), None);
    Occupant(g, m, a);
    Occupant(g, m, b);
    Occupant(g, m, k);
    QuietInProcess(g, team, k, a, b, k);
  }

  // ---------------------------------------------------------------------------
  // The scenarios
  // ---------------------------------------------------------------------------

  const BlackKing: Figure := NewFigure(King, Black)
  const WhiteKing: Figure := NewFigure(King, White)
  const BlackRook: Figure := NewFigure(Rook, Black)
  const WhiteRook: Figure := NewFigure(Rook, White)
  const WhiteBishop: Figure := NewFigure(Bishop, White)

  /** Checkmate-1: Black King on (0,0), White King on (2,1), White Rook on (1,2), which moves to (0,2). */
  const Checkmate1Start: map<Pos, Figure> :=
    map[Pos(0, 0) := BlackKing, Pos(2, 1) := WhiteKing, Pos(1, 2) := WhiteRook]

  /** The position of Checkmate-1 after the move. */
  const Checkmate1End: map<Pos, Figure> :=
    map[Pos(0, 0) := BlackKing, Pos(2, 1) := WhiteKing, Pos(0, 2) := WhiteRook]

  /** Checkmate-1: White has played the Rook from (1,2) to (0,2); Black is checkmated, and the Rook is the priority target. */
  lemma Checkmate1()
    ensures NextGameState(Relocate(Placed(Checkmate1Start), Pos(1, 2), Pos(0, 2)), Black, None)
      == Verdict(Checkmate, Some(Pos(0, 2)), None)
  {
    RelocatePlaced(Checkmate1Start, Pos(1, 2), Pos(0, 2));
    assert (Checkmate1Start - {Pos(1, 2)})[Pos(0, 2) := WhiteRook] == Checkmate1End;
    Checkmate1Verdict(Placed(Checkmate1End));
  }

  /** The verdict on the position of Checkmate-1 after the move. */
  lemma Checkmate1Verdict(g: Grid)
    requires WellFormed(g) && Holds(g, Checkmate1End)
    ensures NextGameState(g, Black, None) == Verdict(Checkmate, Some(Pos(0, 2)), None)
  {
    Checkmate1Lines(g);
    Checkmate1Stuck(g);
    Checkmate1Alone(g);
    StraightCheckVerdict(g, Black, Pos(0, 0), Pos(0, 2), Offset(0, 1), 2);
  }

  /** The lines of Checkmate-1: one Black King, and the Rook two squares away on row 0 is the only White figure reaching it. */
  lemma Checkmate1Lines(g: Grid)
    requires WellFormed(g) && Holds(g, Checkmate1End)
    ensures FindKing(g, Black) == Some(Pos(0, 0))
    ensures StraightCheck(g, Pos(0, 2), Pos(0, 0), White, Offset(0, 1), 2)
  {
    var m := Checkmate1End;
    PlacedKing(g, m, Black, Pos(0, 0));
    Occupant(g, m, Pos(0, 2));
    ClearBetween(g, m, Pos(0, 0), Offset(0, 1), 2, None);
    PlacedUnreaching(g, m, Pos(0, 0), White, None, Some(Pos(0, 2)));
  }

  /** The clear lines along which the White Rooks of Checkmate1 cover the squares next to the King. */
  lemma Checkmate1Cover()
    ensures PlacedStraight(Checkmate1End, Pos(0, 2), Pos(0, 1), White, Some(Pos(0, 0)), Offset(0, 1), 1)
  {
  }

  /** Every square next to the King of Checkmate-1 is covered: (0,1) by the Rook, (1,0) and (1,1) by the White King. */
  lemma Checkmate1Stuck(g: Grid)
    requires WellFormed(g) && Holds(g, Checkmate1End)
    ensures !CanMoveFrom(g, Pos(0, 0))
  {
    var m := Checkmate1End;
    var k := Pos(0, 0);
    Occupant(g, m, Pos(0, 0));
    Checkmate1Cover();
    forall q | InBounds(q) && Adjacent(k, q)
      ensures ReachingEnemyCells(g, q, White, Some(k)) != []
    {
      if q == Pos(0, 1) {
        PlacedStraightHit(g, m, Pos(0, 2), q, White, Some(k), Offset(0, 1), 1);
      } else {
        PlacedKingHit(g, m, Pos(2, 1), q, White, Some(k));
      }
    }
    KingStuck(g, k);
  }

  /** No Black figure of Checkmate-1 but the King, which is ignored, reaches the attacker. */
  lemma Checkmate1Alone(g: Grid)
    requires WellFormed(g) && Holds(g, Checkmate1End)
    ensures ReachingEnemyCells(g, Pos(0, 2), Black, Some(Pos(0, 0))) == []
  {
    PlacedNoHit(g, Checkmate1End, Pos(0, 2), Black, Some(Pos(0, 0)));
  }

  /** Checkmate-2: Black King on (0,1), White King on (2,0), White Rooks on (2,2) and (1,2); the second moves to (0,2). */
  const Checkmate2Start: map<Pos, Figure> :=
    map[Pos(0, 1) := BlackKing, Pos(2, 0) := WhiteKing, Pos(2, 2) := WhiteRook, Pos(1, 2) := WhiteRook]

  /** The position of Checkmate-2 after the move. */
  const Checkmate2End: map<Pos, Figure> :=
    map[Pos(0, 1) := BlackKing, Pos(2, 0) := WhiteKing, Pos(2, 2) := WhiteRook, Pos(0, 2) := WhiteRook]

  /** Checkmate-2: White has played the Rook from (1,2) to (0,2); Black is checkmated, and the Rook is the priority target. */
  lemma Checkmate2()
    ensures NextGameState(Relocate(Placed(Checkmate2Start), Pos(1, 2), Pos(0, 2)), Black, None)
      == Verdict(Checkmate, Some(Pos(0, 2)), None)
  {
    RelocatePlaced(Checkmate2Start, Pos(1, 2), Pos(0, 2));
    assert (Checkmate2Start - {Pos(1, 2)})[Pos(0, 2) := WhiteRook] == Checkmate2End;
    Checkmate2Verdict(Placed(Checkmate2End));
  }

  /** The verdict on the position of Checkmate-2 after the move. */
  lemma Checkmate2Verdict(g: Grid)
    requires WellFormed(g) && Holds(g, Checkmate2End)
    ensures NextGameState(g, Black, None) == Verdict(Checkmate, Some(Pos(0, 2)), None)
  {
    Checkmate2Lines(g);
    Checkmate2Stuck(g);
    Checkmate2Alone(g);
    StraightCheckVerdict(g, Black, Pos(0, 1), Pos(0, 2), Offset(0, 1), 1);
  }

  /** The lines of Checkmate-2: one Black King, and the Rook next to it on row 0 is the only White figure reaching it. */
  lemma Checkmate2Lines(g: Grid)
    requires WellFormed(g) && Holds(g, Checkmate2End)
    ensures FindKing(g, Black) == Some(Pos(0, 1))
    ensures StraightCheck(g, Pos(0, 2), Pos(0, 1), White, Offset(0, 1), 1)
  {
    var m := Checkmate2End;
    PlacedKing(g, m, Black, Pos(0, 1));
    Occupant(g, m, Pos(0, 2));
    ClearBetween(g, m, Pos(0, 1), Offset(0, 1), 1, None);
    PlacedUnreaching(g, m, Pos(0, 1), White, None, Some(Pos(0, 2)));
  }

  /** The clear lines along which the White Rooks of Checkmate2 cover the squares next to the King. */
  lemma Checkmate2Cover()
    ensures PlacedStraight(Checkmate2End, Pos(0, 2), Pos(0, 0), White, Some(Pos(0, 1)), Offset(0, 1), 2)
    ensures PlacedStraight(Checkmate2End, Pos(2, 2), Pos(0, 2), White, Some(Pos(0, 1)), Offset(1, 0), 2)
    ensures PlacedStraight(Checkmate2End, Pos(0, 2), Pos(1, 2), White, Some(Pos(0, 1)), Offset(-1, 0), 1)
  {
  }

  /** Every square next to the King of Checkmate-2 is covered: (0,0) by the Rook on (0,2) through the King's own square, (0,2) by the Rook on (2,2), (1,2) by the Rook on (0,2), and (1,0) and (1,1) by the White King. */
  lemma Checkmate2Stuck(g: Grid)
    requires WellFormed(g) && Holds(g, Checkmate2End)
    ensures !CanMoveFrom(g, Pos(0, 1))
  {
    var m := Checkmate2End;
    var k := Pos(0, 1);
    Occupant(g, m, Pos(0, 1));
    Checkmate2Cover();
    forall q | InBounds(q) && Adjacent(k, q)
      ensures ReachingEnemyCells(g, q, White, Some(k)) != []
    {
      if q == Pos(0, 0) {
        PlacedStraightHit(g, m, Pos(0, 2), q, White, Some(k), Offset(0, 1), 2);
      } else if q == Pos(0, 2) {
        PlacedStraightHit(g, m, Pos(2, 2), q, White, Some(k), Offset(1, 0), 2);
      } else if q == Pos(1, 2) {
        PlacedStraightHit(g, m, Pos(0, 2), q, White, Some(k), Offset(-1, 0), 1);
      } else {
        PlacedKingHit(g, m, Pos(2, 0), q, White, Some(k));
      }
    }
    KingStuck(g, k);
  }

  /** No Black figure of Checkmate-2 but the King, which is ignored, reaches the attacker. */
  lemma Checkmate2Alone(g: Grid)
    requires WellFormed(g) && Holds(g, Checkmate2End)
    ensures ReachingEnemyCells(g, Pos(0, 2), Black, Some(Pos(0, 1))) == []
  {
    PlacedNoHit(g, Checkmate2End, Pos(0, 2), Black, Some(Pos(0, 1)));
  }

  /** Checkmate-3: Black King on (0,1), White King on (2,1), White Rook on (1,4), which moves to (0,4). */
  const Checkmate3Start: map<Pos, Figure> :=
    map[Pos(0, 1) := BlackKing, Pos(2, 1) := WhiteKing, Pos(1, 4) := WhiteRook]

  /** The position of Checkmate-3 after the move. */
  const Checkmate3End: map<Pos, Figure> :=
    map[Pos(0, 1) := BlackKing, Pos(2, 1) := WhiteKing, Pos(0, 4) := WhiteRook]

  /** Checkmate-3: White has played the Rook from (1,4) to (0,4); Black is checkmated, and the Rook is the priority target. */
  lemma Checkmate3()
    ensures NextGameState(Relocate(Placed(Checkmate3Start), Pos(1, 4), Pos(0, 4)), Black, None)
      == Verdict(Checkmate, Some(Pos(0, 4)), None)
  {
    RelocatePlaced(Checkmate3Start, Pos(1, 4), Pos(0, 4));
    assert (Checkmate3Start - {Pos(1, 4)})[Pos(0, 4) := WhiteRook] == Checkmate3End;
    Checkmate3Verdict(Placed(Checkmate3End));
  }

  /** The verdict on the position of Checkmate-3 after the move. */
  lemma Checkmate3Verdict(g: Grid)
    requires WellFormed(g) && Holds(g, Checkmate3End)
    ensures NextGameState(g, Black, None) == Verdict(Checkmate, Some(Pos(0, 4)), None)
  {
    Checkmate3Lines(g);
    Checkmate3Stuck(g);
    Checkmate3Alone(g);
    StraightCheckVerdict(g, Black, Pos(0, 1), Pos(0, 4), Offset(0, 1), 3);
  }

  /** The lines of Checkmate-3: one Black King, and the Rook three squares away on row 0 is the only White figure reaching it. */
  lemma Checkmate3Lines(g: Grid)
    requires WellFormed(g) && Holds(g, Checkmate3End)
    ensures FindKing(g, Black) == Some(Pos(0, 1))
    ensures StraightCheck(g, Pos(0, 4), Pos(0, 1), White, Offset(0, 1), 3)
  {
    var m := Checkmate3End;
    PlacedKing(g, m, Black, Pos(0, 1));
    Occupant(g, m, Pos(0, 4));
    ClearBetween(g, m, Pos(0, 1), Offset(0, 1), 3, None);
    PlacedUnreaching(g, m, Pos(0, 1), White, None, Some(Pos(0, 4)));
  }

  /** The clear lines along which the White Rooks of Checkmate3 cover the squares next to the King. */
  lemma Checkmate3Cover()
    ensures PlacedStraight(Checkmate3End, Pos(0, 4), Pos(0, 0), White, Some(Pos(0, 1)), Offset(0, 1), 4)
    ensures PlacedStraight(Checkmate3End, Pos(0, 4), Pos(0, 2), White, Some(Pos(0, 1)), Offset(0, 1), 2)
  {
  }

  /** Every square next to the King of Checkmate-3 is covered: (0,0) and (0,2) by the Rook, (0,0) through the King's own square, and (1,0), (1,1) and (1,2) by the White King. */
  lemma Checkmate3Stuck(g: Grid)
    requires WellFormed(g) && Holds(g, Checkmate3End)
    ensures !CanMoveFrom(g, Pos(0, 1))
  {
    var m := Checkmate3End;
    var k := Pos(0, 1);
    Occupant(g, m, Pos(0, 1));
    Checkmate3Cover();
    forall q | InBounds(q) && Adjacent(k, q)
      ensures ReachingEnemyCells(g, q, White, Some(k)) != []
    {
      if q == Pos(0, 0) {
        PlacedStraightHit(g, m, Pos(0, 4), q, White, Some(k), Offset(0, 1), 4);
      } else if q == Pos(0, 2) {
        PlacedStraightHit(g, m, Pos(0, 4), q, White, Some(k), Offset(0, 1), 2);
      } else {
        PlacedKingHit(g, m, Pos(2, 1), q, White, Some(k));
      }
    }
    KingStuck(g, k);
  }

  /** No Black figure of Checkmate-3 but the King, which is ignored, reaches the attacker. */
  lemma Checkmate3Alone(g: Grid)
    requires WellFormed(g) && Holds(g, Checkmate3End)
    ensures ReachingEnemyCells(g, Pos(0, 4), Black, Some(Pos(0, 1))) == []
  {
    PlacedNoHit(g, Checkmate3End, Pos(0, 4), Black, Some(Pos(0, 1)));
  }

  /** Check-1: Black King on (0,1), White King on (2,0), White Rook on (2,2), which moves to (2,1). */
  const Check1Start: map<Pos, Figure> :=
    map[Pos(0, 1) := BlackKing, Pos(2, 0) := WhiteKing, Pos(2, 2) := WhiteRook]

  /** The position of Check-1 after the move. */
  const Check1End: map<Pos, Figure> :=
    map[Pos(0, 1) := BlackKing, Pos(2, 0) := WhiteKing, Pos(2, 1) := WhiteRook]

  /** Check-1: White has played the Rook from (2,2) to (2,1); Black is in check, and the Rook is the priority target. */
  lemma Check1()
    ensures NextGameState(Relocate(Placed(Check1Start), Pos(2, 2), Pos(2, 1)), Black, None)
      == Verdict(Check, Some(Pos(2, 1)), None)
  {
    RelocatePlaced(Check1Start, Pos(2, 2), Pos(2, 1));
    assert (Check1Start - {Pos(2, 2)})[Pos(2, 1) := WhiteRook] == Check1End;
    Check1Verdict(Placed(Check1End));
  }

  /** The verdict on the position of Check-1 after the move. */
  lemma Check1Verdict(g: Grid)
    requires WellFormed(g) && Holds(g, Check1End)
    ensures NextGameState(g, Black, None) == Verdict(Check, Some(Pos(2, 1)), None)
  {
    Check1Lines(g);
    Check1Free(g);
    StraightCheckVerdict(g, Black, Pos(0, 1), Pos(2, 1), Offset(1, 0), 2);
  }

  /** The lines of Check-1: one Black King, and the Rook two squares down column 1 is the only White figure reaching it. */
  lemma Check1Lines(g: Grid)
    requires WellFormed(g) && Holds(g, Check1End)
    ensures FindKing(g, Black) == Some(Pos(0, 1))
    ensures StraightCheck(g, Pos(2, 1), Pos(0, 1), White, Offset(1, 0), 2)
  {
    var m := Check1End;
    PlacedKing(g, m, Black, Pos(0, 1));
    Occupant(g, m, Pos(2, 1));
    ClearBetween(g, m, Pos(0, 1), Offset(1, 0), 2, None);
    PlacedUnreaching(g, m, Pos(0, 1), White, None, Some(Pos(2, 1)));
  }

  /** The King of Check-1 can step to (0,0), which no White figure reaches. */
  lemma Check1Free(g: Grid)
    requires WellFormed(g) && Holds(g, Check1End)
    ensures CanMoveFrom(g, Pos(0, 1))
  {
    PlacedKingFree(g, Check1End, Pos(0, 1), Pos(0, 0));
  }

  /** Check-2: Black King on (0,0), White King on (2,0), White Rook on (2,1), which moves to (0,1). */
  const Check2Start: map<Pos, Figure> :=
    map[Pos(0, 0) := BlackKing, Pos(2, 0) := WhiteKing, Pos(2, 1) := WhiteRook]

  /** The position of Check-2 after the move. */
  const Check2End: map<Pos, Figure> :=
    map[Pos(0, 0) := BlackKing, Pos(2, 0) := WhiteKing, Pos(0, 1) := WhiteRook]

  /** Check-2: White has played the Rook from (2,1) to (0,1); Black is in check, and the Rook is the priority target. */
  lemma Check2()
    ensures NextGameState(Relocate(Placed(Check2Start), Pos(2, 1), Pos(0, 1)), Black, None)
      == Verdict(Check, Some(Pos(0, 1)), None)
  {
    RelocatePlaced(Check2Start, Pos(2, 1), Pos(0, 1));
    assert (Check2Start - {Pos(2, 1)})[Pos(0, 1) := WhiteRook] == Check2End;
    Check2Verdict(Placed(Check2End));
  }

  /** The verdict on the position of Check-2 after the move. */
  lemma Check2Verdict(g: Grid)
    requires WellFormed(g) && Holds(g, Check2End)
    ensures NextGameState(g, Black, None) == Verdict(Check, Some(Pos(0, 1)), None)
  {
    Check2Lines(g);
    Check2Free(g);
    StraightCheckVerdict(g, Black, Pos(0, 0), Pos(0, 1), Offset(0, 1), 1);
  }

  /** The lines of Check-2: one Black King, and the Rook next to it on row 0 is the only White figure reaching it. */
  lemma Check2Lines(g: Grid)
    requires WellFormed(g) && Holds(g, Check2End)
    ensures FindKing(g, Black) == Some(Pos(0, 0))
    ensures StraightCheck(g, Pos(0, 1), Pos(0, 0), White, Offset(0, 1), 1)
  {
    var m := Check2End;
    PlacedKing(g, m, Black, Pos(0, 0));
    Occupant(g, m, Pos(0, 1));
    ClearBetween(g, m, Pos(0, 0), Offset(0, 1), 1, None);
    PlacedUnreaching(g, m, Pos(0, 0), White, None, Some(Pos(0, 1)));
  }

  /** The King of Check-2 can take the Rook on (0,1), which no other White figure protects. */
  lemma Check2Free(g: Grid)
    requires WellFormed(g) && Holds(g, Check2End)
    ensures CanMoveFrom(g, Pos(0, 0))
  {
    PlacedKingFree(g, Check2End, Pos(0, 0), Pos(0, 1));
  }

  /** Check-3: Black King on (0,0), Black Rook on (0,6), White King on (2,0), White Rook on (1,4), which moves to (0,4). */
  const Check3Start: map<Pos, Figure> :=
    map[Pos(0, 0) := BlackKing, Pos(0, 6) := BlackRook, Pos(2, 0) := WhiteKing, Pos(1, 4) := WhiteRook]

  /** The position of Check-3 after the move. */
  const Check3End: map<Pos, Figure> :=
    map[Pos(0, 0) := BlackKing, Pos(0, 6) := BlackRook, Pos(2, 0) := WhiteKing, Pos(0, 4) := WhiteRook]

  /** Check-3: White has played the Rook from (1,4) to (0,4); Black is in check, since its Rook on (0,6) can take the attacker, which is the priority target. */
  lemma Check3()
    ensures NextGameState(Relocate(Placed(Check3Start), Pos(1, 4), Pos(0, 4)), Black, None)
      == Verdict(Check, Some(Pos(0, 4)), None)
  {
    RelocatePlaced(Check3Start, Pos(1, 4), Pos(0, 4));
    assert (Check3Start - {Pos(1, 4)})[Pos(0, 4) := WhiteRook] == Check3End;
    Check3Verdict(Placed(Check3End));
  }

  /** The clear line along which the Black Rook of Check-3 reaches the attacker. */
  lemma Check3Cover()
    ensures PlacedStraight(Check3End, Pos(0, 6), Pos(0, 4), Black, Some(Pos(0, 0)), Offset(0, 1), 2)
  {
  }

  /** The verdict on the position of Check-3 after the move. */
  lemma Check3Verdict(g: Grid)
    requires WellFormed(g) && Holds(g, Check3End)
    ensures NextGameState(g, Black, None) == Verdict(Check, Some(Pos(0, 4)), None)
  {
    Check3Lines(g);
    Check3Cover();
    AllyCheckVerdict(g, Check3End, Black, Pos(0, 0), Pos(0, 4), Offset(0, 1), 4, Pos(0, 6), Offset(0, 1), 2);
  }

  /** The lines of Check-3: one Black King, and the Rook four squares away on row 0 is the only White figure reaching it. */
  lemma Check3Lines(g: Grid)
    requires WellFormed(g) && Holds(g, Check3End)
    ensures FindKing(g, Black) == Some(Pos(0, 0))
    ensures StraightCheck(g, Pos(0, 4), Pos(0, 0), White, Offset(0, 1), 4)
  {
    var m := Check3End;
    PlacedKing(g, m, Black, Pos(0, 0));
    Occupant(g, m, Pos(0, 4));
    ClearBetween(g, m, Pos(0, 0), Offset(0, 1), 4, None);
    PlacedUnreaching(g, m, Pos(0, 0), White, None, Some(Pos(0, 4)));
  }

  /** Mate-1: Black King on (0,0), White King on (2,0), White Rook on (2,2), which moves to (2,1). */
  const Mate1Start: map<Pos, Figure> :=
    map[Pos(0, 0) := BlackKing, Pos(2, 0) := WhiteKing, Pos(2, 2) := WhiteRook]

  /** The position of Mate-1 after the move. */
  const Mate1End: map<Pos, Figure> :=
    map[Pos(0, 0) := BlackKing, Pos(2, 0) := WhiteKing, Pos(2, 1) := WhiteRook]

  /** Mate-1: White has played the Rook from (2,2) to (2,1); Black is not in check and cannot move: Mate, with no target. */
  lemma Mate1()
    ensures NextGameState(Relocate(Placed(Mate1Start), Pos(2, 2), Pos(2, 1)), Black, None)
      == Verdict(Mate, None, None)
  {
    RelocatePlaced(Mate1Start, Pos(2, 2), Pos(2, 1));
    assert (Mate1Start - {Pos(2, 2)})[Pos(2, 1) := WhiteRook] == Mate1End;
    Mate1Verdict(Placed(Mate1End));
  }

  /** Mate-1 is a quiet layout, and the Black King is Black's only figure. */
  lemma Mate1Layout()
    ensures QuietLayout(Mate1End, Black, Pos(0, 0), Pos(2, 0), Pos(2, 1))
    ensures forall q | q in Mate1End && Mate1End[q].color == Black :: q == Pos(0, 0)
  {
  }

  /** The verdict on the position of Mate-1 after the move. */
  lemma Mate1Verdict(g: Grid)
    requires WellFormed(g) && Holds(g, Mate1End)
    ensures NextGameState(g, Black, None) == Verdict(Mate, None, None)
  {
    Mate1Stuck(g);
    Mate1Layout();
    PlacedQuietMate(g, Mate1End, Black, Pos(0, 0), Pos(2, 0), Pos(2, 1));
  }

  /** The clear lines along which the White Rooks of Mate1 cover the squares next to the King. */
  lemma Mate1Cover()
    ensures PlacedStraight(Mate1End, Pos(2, 1), Pos(0, 1), White, Some(Pos(0, 0)), Offset(1, 0), 2)
  {
  }

  /** Every square next to the King of Mate-1 is covered: (0,1) by the Rook up column 1, (1,0) and (1,1) by the White King. */
  lemma Mate1Stuck(g: Grid)
    requires WellFormed(g) && Holds(g, Mate1End)
    ensures !CanMoveFrom(g, Pos(0, 0))
  {
    var m := Mate1End;
    var k := Pos(0, 0);
    Occupant(g, m, Pos(0, 0));
    Mate1Cover();
    forall q | InBounds(q) && Adjacent(k, q)
      ensures ReachingEnemyCells(g, q, White, Some(k)) != []
    {
      if q == Pos(0, 1) {
        PlacedStraightHit(g, m, Pos(2, 1), q, White, Some(k), Offset(1, 0), 2);
      } else {
        PlacedKingHit(g, m, Pos(2, 0), q, White, Some(k));
      }
    }
    KingStuck(g, k);
  }

  /** InProcess-1: Black King on (0,1), White King on (2,0), White Rook on (2,2), White Bishop on (1,3), which moves to (0,2). */
  const InProcess1Start: map<Pos, Figure> :=
    map[Pos(0, 1) := BlackKing, Pos(2, 0) := WhiteKing, Pos(2, 2) := WhiteRook, Pos(1, 3) := WhiteBishop]

  /** The position of InProcess-1 after the move. */
  const InProcess1End: map<Pos, Figure> :=
    map[Pos(0, 1) := BlackKing, Pos(2, 0) := WhiteKing, Pos(2, 2) := WhiteRook, Pos(0, 2) := WhiteBishop]

  /** InProcess-1: White has played the Bishop from (1,3) to (0,2); Black is not in check and its King can move: the game goes on, with no target. */
  lemma InProcess1()
    ensures NextGameState(Relocate(Placed(InProcess1Start), Pos(1, 3), Pos(0, 2)), Black, None)
      == Verdict(InProcess, None, None)
  {
    RelocatePlaced(InProcess1Start, Pos(1, 3), Pos(0, 2));
    assert (InProcess1Start - {Pos(1, 3)})[Pos(0, 2) := WhiteBishop] == InProcess1End;
    InProcess1Verdict(Placed(InProcess1End));
  }

  /** InProcess-1 is a quiet layout. */
  lemma InProcess1Layout()
    ensures QuietLayout(InProcess1End, Black, Pos(0, 1), Pos(2, 0), Pos(2, 2))
  {
  }

  /** The verdict on the position of InProcess-1 after the move. */
  lemma InProcess1Verdict(g: Grid)
    requires WellFormed(g) && Holds(g, InProcess1End)
    ensures NextGameState(g, Black, None) == Verdict(InProcess, None, None)
  {
    InProcess1Free(g);
    InProcess1Layout();
    PlacedQuietInProcess(g, InProcess1End, Black, Pos(0, 1), Pos(2, 0), Pos(2, 2));
  }

  /** The King of InProcess-1 can step to (0,0), which no White figure reaches. */
  lemma InProcess1Free(g: Grid)
    requires WellFormed(g) && Holds(g, InProcess1End)
    ensures CanMoveFrom(g, Pos(0, 1))
  {
    PlacedKingFree(g, InProcess1End, Pos(0, 1), Pos(0, 0));
  }
}
