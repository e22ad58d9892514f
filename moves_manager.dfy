/**
 * The move generator of the current revision (src/services/chessboard/ChessMovesManager.ts).
 *
 * Every `processFor*Patterns` traversal calls a callback with the origin and each
 * square it reaches; a callback that returns false stops the whole traversal. Here
 * a traversal is the ordered sequence of squares it hands to the callback, and a
 * callback that stops early sees a prefix of it. The pawn traversal may throw
 * after yielding squares (its unchecked two-square read); a `Walk` records that.
 */
module MovesManager {
  import opened ChessModel

  /** A displacement on the board, in rows and columns. */
  datatype Offset = Offset(dr: int, dc: int)

  function Shift(p: Pos, d: Offset): Pos {
    Pos(p.row + d.dr, p.col + d.dc)
  }

  /** One of the eight unit directions of a ray. */
  predicate IsUnit(d: Offset) {
    -1 <= d.dr <= 1 && -1 <= d.dc <= 1 && (d.dr != 0 || d.dc != 0)
  }

  /** `n` times a unit component `x`, written without multiplication. */
  function Scale(n: int, x: int): int {
    if x == 1 then n else if x == -1 then -n else 0
  }

  /** The square `n` steps from `p` in direction `d`; a coordinate the direction does not move stays as it is. */
  function Along(p: Pos, d: Offset, n: int): Pos {
    Pos(if d.dr == 0 then p.row else p.row + Scale(n, d.dr), if d.dc == 0 then p.col else p.col + Scale(n, d.dc))
  }

  /** How many steps a ray from `p` in direction `d` can still take: bounds its length. */
  function Remaining(p: Pos, d: Offset): nat
    requires InBounds(p) && IsUnit(d)
  {
    (if d.dr == 1 then Size - p.row else if d.dr == -1 then p.row + 1 else 0)
    + (if d.dc == 1 then Size - p.col else if d.dc == -1 then p.col + 1 else 0)
  }

  /** The rook directions, in the order the program walks them. */
  const StraightDirections: seq<Offset> := [Offset(1, 0), Offset(-1, 0), Offset(0, 1), Offset(0, -1)]

  /** The bishop directions, in the order the program walks them. */
  const DiagonalDirections: seq<Offset> := [Offset(1, 1), Offset(1, -1), Offset(-1, 1), Offset(-1, -1)]

  /** The king's eight steps, in the order the program tries them. */
  const KingOffsets: seq<Offset> :=
    [Offset(1, 1), Offset(1, 0), Offset(1, -1), Offset(0, 1), Offset(0, -1),
     Offset(-1, 1), Offset(-1, 0), Offset(-1, -1)]

  /** The knight's eight jumps, in the order the program tries them. */
  const KnightOffsets: seq<Offset> :=
    [Offset(2, 1), Offset(2, -1), Offset(-2, 1), Offset(-2, -1), Offset(1, 2), Offset(1, -2),
     Offset(-1, 2), Offset(-1, -2)]

  predicate AllUnit(dirs: seq<Offset>) {
    forall i :: 0 <= i < |dirs| ==> IsUnit(dirs[i])
  }

  predicate AllInBounds(ps: seq<Pos>) {
    forall q | q in ps :: InBounds(q)
  }

  /** A square a traversal may hand to its callback: empty, or holding an `enemy` figure. */
  predicate Passable(g: Grid, q: Pos, enemy: Color)
    requires WellFormed(g) && InBounds(q)
  {
    IsEmpty(g, q) || HoldsColor(g, q, enemy)
  }

  /**
   * The squares one ray of `processForVerticalAndHorizontalPatterns` or
   * `processForDiagonalPatterns` hands to its callback, starting next to `p`.
   * The ignored cell is skipped outright; an empty square is yielded and the walk
   * goes on; an `enemy` square is yielded and ends the ray; any other figure ends
   * it unyielded.
   */
  function Ray(g: Grid, p: Pos, d: Offset, enemy: Color, ignored: Option<Pos>): (r: seq<Pos>)
    requires WellFormed(g) && InBounds(p) && IsUnit(d)
    ensures forall q | q in r :: InBounds(q) && Passable(g, q, enemy) && ignored != Some(q)
    decreases Remaining(p, d)
  {
    var next := Shift(p, d);
    if !InBounds(next) then []
    else if ignored == Some(next) then Ray(g, next, d, enemy, ignored)
    else if IsEmpty(g, next) then [next] + Ray(g, next, d, enemy, ignored)
    else if HoldsColor(g, next, enemy) then [next]
    else []
  }

  /** One step of a ray, when the square next to `p` is on the board. */
  lemma RayStep(g: Grid, p: Pos, d: Offset, enemy: Color, ignored: Option<Pos>)
    requires WellFormed(g) && InBounds(p) && IsUnit(d) && InBounds(Shift(p, d))
    ensures var next := Shift(p, d);
      Ray(g, p, d, enemy, ignored) ==
        if ignored == Some(next) then Ray(g, next, d, enemy, ignored)
        else if IsEmpty(g, next) then [next] + Ray(g, next, d, enemy, ignored)
        else if HoldsColor(g, next, enemy) then [next]
        else []
  {
  }

  lemma AppendAssociates<T>(a: seq<T>, b: seq<T>, c: seq<T>)
    ensures (a + b) + c == a + (b + c)
  {
  }

  /** The rays of `dirs` one after the other, in the order of `dirs`. */
  function Lines(g: Grid, p: Pos, dirs: seq<Offset>, enemy: Color, ignored: Option<Pos>): (r: seq<Pos>)
    requires WellFormed(g) && InBounds(p) && AllUnit(dirs)
    ensures forall q | q in r :: InBounds(q) && Passable(g, q, enemy) && ignored != Some(q)
  {
    if dirs == [] then []
    else Lines(g, p, dirs[..|dirs| - 1], enemy, ignored) + Ray(g, p, dirs[|dirs| - 1], enemy, ignored)
  }

  /**
   * The squares a single-step traversal (`processForKnightPatterns`,
   * `processForKingPatterns`) hands to its callback, in the order of `offsets`.
   */
  function Steps(g: Grid, p: Pos, offsets: seq<Offset>, enemy: Color, ignored: Option<Pos>): (r: seq<Pos>)
    requires WellFormed(g) && InBounds(p)
    ensures AllInBounds(r)
    ensures forall q | q in r :: ignored != Some(q) && Passable(g, q, enemy)
  {
    if offsets == [] then []
    else
      var rest := Steps(g, p, offsets[..|offsets| - 1], enemy, ignored);
      var q := Shift(p, offsets[|offsets| - 1]);
      rest + (if InBounds(q) && ignored != Some(q) && Passable(g, q, enemy) then [q] else [])
  }

  /** The steps yield exactly the squares one offset away that are on the board, not ignored and passable. */
  lemma {:induction false} StepsMember(g: Grid, p: Pos, offsets: seq<Offset>, enemy: Color, ignored: Option<Pos>, q: Pos)
    requires WellFormed(g) && InBounds(p)
    ensures q in Steps(g, p, offsets, enemy, ignored) <==>
      exists i :: 0 <= i < |offsets| && q == Shift(p, offsets[i]) && InBounds(q) && ignored != Some(q) && Passable(g, q, enemy)
    decreases |offsets|
  {
    if offsets != [] {
      var init := offsets[..|offsets| - 1];
      StepsMember(g, p, init, enemy, ignored, q);
      assert forall i :: 0 <= i < |init| ==> init[i] == offsets[i];
    }
  }

  /** One more offset adds its square to the walk when that square is on the board, not ignored and passable. */
  lemma StepsSnoc(g: Grid, p: Pos, offsets: seq<Offset>, k: int, enemy: Color, ignored: Option<Pos>)
    requires WellFormed(g) && InBounds(p) && 0 <= k < |offsets|
    ensures var q := Shift(p, offsets[k]);
      Steps(g, p, offsets[..k + 1], enemy, ignored) ==
        Steps(g, p, offsets[..k], enemy, ignored) + (if InBounds(q) && ignored != Some(q) && Passable(g, q, enemy) then [q] else [])
  {
    assert offsets[..k + 1][..k] == offsets[..k];
  }

  /** The squares a traversal hands to its callback, and the error it throws afterwards, if any. */
  datatype Walk = Walk(squares: seq<Pos>, fault: Option<Fault>)

  /** The row step of a pawn whose enemies have colour `enemy` (Black pawns go down the rows). */
  function PawnAdvance(enemy: Color): int {
    if enemy == White then 1 else -1
  }

  /**
   * `processForPawnPatterns`: nothing for a non-pawn; the square ahead if empty;
   * for an unmoved pawn with the square ahead empty, the square two ahead, read
   * without a bounds check; then the two forward diagonals when they hold an
   * `enemy` figure. The first diagonal is ahead in the direction given by `enemy`,
   * the second in the direction given by the pawn's own colour.
   */
  function PawnWalk(g: Grid, p: Pos, enemy: Color): (w: Walk)
    requires WellFormed(g) && InBounds(p)
    ensures AllInBounds(w.squares)
    ensures forall q | q in w.squares :: Passable(g, q, enemy)
    ensures w.fault.Some? ==> w.squares != []
  {
    var f := At(g, p).figure;
    if !(f.Some? && f.value.figureName == Pawn) then Walk([], None)
    else
      var pushes := PawnPushes(g, p, enemy, f.value.moved);
      if pushes.fault.Some? then pushes
      else Walk(pushes.squares + PawnCaptures(g, p, enemy, f.value.color), None)
  }

  /**
   * The forward part of the pawn walk: the square ahead when it is on the board
   * and empty; then, for an unmoved pawn, the square two ahead, read without a
   * bounds check (the read off the board is the walk's fault) and yielded when empty.
   */
  function PawnPushes(g: Grid, p: Pos, enemy: Color, moved: bool): (w: Walk)
    requires WellFormed(g)
    ensures forall q | q in w.squares :: InBounds(q) && IsEmpty(g, q)
    ensures w.fault.Some? ==> w.squares != []
  {
    var ahead := Pos(p.row + PawnAdvance(enemy), p.col);
    var twoAhead := Pos(p.row + 2 * PawnAdvance(enemy), p.col);
    if !(InBounds(ahead) && IsEmpty(g, ahead)) then Walk([], None)
    else if moved then Walk([ahead], None)
    else if !InBounds(twoAhead) then Walk([ahead], Some(OffBoardRead))
    else if IsEmpty(g, twoAhead) then Walk([ahead, twoAhead], None)
    else Walk([ahead], None)
  }

  /**
   * The two capture squares the pawn walk looks at, when they hold an `enemy`
   * figure: the first ahead in the direction given by `enemy`, one column right;
   * the second ahead in the direction given by the pawn's own `color`, one column left.
   */
  function PawnCaptures(g: Grid, p: Pos, enemy: Color, color: Color): (r: seq<Pos>)
    requires WellFormed(g)
    ensures forall q | q in r :: InBounds(q) && HoldsColor(g, q, enemy)
  {
    var left := Pos(p.row + PawnAdvance(enemy), p.col + 1);
    var right := Pos(p.row + (if color == White then -1 else 1), p.col - 1);
    (if InBounds(left) && HoldsColor(g, left, enemy) then [left] else [])
    + (if InBounds(right) && HoldsColor(g, right, enemy) then [right] else [])
  }

  /**
   * `processForCellsFigurePattern`: dispatches on the kind of figure at `p`. Rook,
   * Bishop, Queen and King pass `ignored` on; Knight and Pawn take none. An empty
   * origin throws before anything is yielded. The Queen's walk is the straight
   * walk followed by the diagonal one, two traversals run one after the other.
   */
  function PatternWalk(g: Grid, p: Pos, enemy: Color, ignored: Option<Pos>): (w: Walk)
    requires WellFormed(g) && InBounds(p)
    ensures AllInBounds(w.squares)
    ensures forall q | q in w.squares :: Passable(g, q, enemy)
    ensures w.fault.Some? ==> (w.fault == Some(MissingFigure) <==> w.squares == [])
  {
    assert AllUnit(StraightDirections) && AllUnit(DiagonalDirections);
    match At(g, p).figure
    case None => Walk([], Some(MissingFigure))
    case Some(f) =>
      match f.figureName
      case Rook => Walk(Lines(g, p, StraightDirections, enemy, ignored), None)
      case Knight => Walk(Steps(g, p, KnightOffsets, enemy, None), None)
      case Bishop => Walk(Lines(g, p, DiagonalDirections, enemy, ignored), None)
      case Queen =>
        Walk(Lines(g, p, StraightDirections, enemy, ignored) + Lines(g, p, DiagonalDirections, enemy, ignored), None)
      case King => Walk(Steps(g, p, KingOffsets, enemy, ignored), None)
      case Pawn => PawnWalk(g, p, enemy)
  }

  /**
   * The squares from which an `enemy` pawn is taken to attack `p`: one row up for
   * White, one row down for Black, one column to each side (left first).
   */
  function PawnAttackSquares(p: Pos, enemy: Color): seq<Pos> {
    var r := p.row + (if enemy == White then -1 else 1);
    [Pos(r, p.col - 1), Pos(r, p.col + 1)]
  }

  /**
   * `getReachingEnemyCells`: the `enemy` rooks and queens on the straight rays from
   * `cell`, the bishops and queens on its diagonal rays, the kings next to it, the
   * knights a knight's jump away, and any `enemy` figure on the two pawn squares,
   * in that order. `ignored` is transparent to the rays and skipped by the king
   * step; the knight step and the pawn squares do not consult it.
   */
  function ReachingEnemyCells(g: Grid, cell: Pos, enemy: Color, ignored: Option<Pos>): (r: seq<Pos>)
    requires WellFormed(g) && InBounds(cell)
    ensures forall q | q in r :: InBounds(q) && HoldsColor(g, q, enemy)
  {
    assert AllUnit(StraightDirections) && AllUnit(DiagonalDirections);
    var rooks := Holding(g, Lines(g, cell, StraightDirections, enemy, ignored), enemy, {Rook, Queen});
    var bishops := Holding(g, Lines(g, cell, DiagonalDirections, enemy, ignored), enemy, {Bishop, Queen});
    var kings := Holding(g, Steps(g, cell, KingOffsets, enemy, ignored), enemy, {King});
    var knights := Holding(g, Steps(g, cell, KnightOffsets, enemy, None), enemy, {Knight});
    var pawns := Holding(g, PawnSquaresOnBoard(cell, enemy), enemy, AllKinds);
    assert forall q | q in rooks :: InBounds(q) && HoldsColor(g, q, enemy);
    assert forall q | q in bishops :: InBounds(q) && HoldsColor(g, q, enemy);
    assert forall q | q in kings :: InBounds(q) && HoldsColor(g, q, enemy);
    assert forall q | q in knights :: InBounds(q) && HoldsColor(g, q, enemy);
    assert forall q | q in pawns :: InBounds(q) && HoldsColor(g, q, enemy);
    rooks + bishops + kings + knights + pawns
  }

  /** The pawn squares of `p` that lie on the board. */
  function PawnSquaresOnBoard(p: Pos, enemy: Color): (r: seq<Pos>)
    ensures AllInBounds(r)
    ensures forall q :: q in r <==> q in PawnAttackSquares(p, enemy) && InBounds(q)
  {
    var s := PawnAttackSquares(p, enemy);
    (if InBounds(s[0]) then [s[0]] else []) + (if InBounds(s[1]) then [s[1]] else [])
  }

  /** `isTeammates`: both cells hold figures, of the same colour. */
  function IsTeammates(a: Cell, b: Cell): (r: bool)
    ensures r ==> a.figure.Some? && b.figure.Some?
    ensures a == b && a.figure.Some? ==> r
  {
    a.figure.Some? && b.figure.Some? && a.figure.value.color == b.figure.value.color
  }

  /** `isEnemies`: both cells hold figures, of different colours. */
  function IsEnemies(a: Cell, b: Cell): (r: bool)
    ensures r ==> a.figure.Some? && b.figure.Some?
    ensures a.figure.Some? && b.figure.Some? ==> (r <==> !IsTeammates(a, b))
  {
    a.figure.Some? && b.figure.Some? && a.figure.value.color != b.figure.value.color
  }

  /**
   * `canMoveFromCell`. An empty cell cannot move. A King can when some square of
   * its step pattern not held by a teammate is reached by no enemy once the King's
   * own square is ignored. Any other figure can when its pattern yields a square
   * not held by a teammate.
   */
  function CanMoveFrom(g: Grid, p: Pos): (r: bool)
    requires WellFormed(g) && InBounds(p)
    ensures r ==> At(g, p).figure.Some?
    ensures r ==> exists q :: InBounds(q) && !IsTeammates(At(g, p), At(g, q))
  {
    match At(g, p).figure
    case None => false
    case Some(f) =>
      var enemy := Opponent(f.color);
      if f.figureName == King then FreeAroundKing(g, p, Steps(g, p, KingOffsets, enemy, None), enemy)
      else SomeNonTeammate(g, p, PatternWalk(g, p, enemy, None).squares)
  }

  /** Some square of `near` is not a teammate's of `p` and is reached by no enemy once `p` is ignored. */
  predicate FreeAroundKing(g: Grid, p: Pos, near: seq<Pos>, enemy: Color)
    requires WellFormed(g) && InBounds(p) && AllInBounds(near)
  {
    exists i :: 0 <= i < |near| && KingMayGo(g, p, near[i], enemy)
  }

  /** The King at `p` may go to `q`: not a teammate's square, and no enemy reaches it once `p` is ignored. */
  predicate KingMayGo(g: Grid, p: Pos, q: Pos, enemy: Color)
    requires WellFormed(g) && InBounds(p) && InBounds(q)
  {
    !IsTeammates(At(g, p), At(g, q)) && ReachingEnemyCells(g, q, enemy, Some(p)) == []
  }

  /** Some square of `squares` is not a teammate's of `p`. */
  predicate SomeNonTeammate(g: Grid, p: Pos, squares: seq<Pos>)
    requires WellFormed(g) && InBounds(p) && AllInBounds(squares)
  {
    exists i :: 0 <= i < |squares| && !IsTeammates(At(g, p), At(g, squares[i]))
  }

  predicate IsKingOf(g: Grid, q: Pos, color: Color)
    requires WellFormed(g) && InBounds(q)
  {
    HoldsKind(g, q, color, {King})
  }

  /** `a` comes before `b` in row-major order. */
  predicate Before(a: Pos, b: Pos) {
    a.row < b.row || (a.row == b.row && a.col < b.col)
  }

  /** The first King of `color` at or after (i, j) in row-major order. */
  function KingFrom(g: Grid, color: Color, i: int, j: int): (r: Option<Pos>)
    requires WellFormed(g) && 0 <= i <= Size && 0 <= j <= Size
    ensures r.Some? ==> InBounds(r.value) && IsKingOf(g, r.value, color) && !Before(r.value, Pos(i, j))
    ensures r.Some? ==> forall q :: InBounds(q) && !Before(q, Pos(i, j)) && Before(q, r.value) ==> !IsKingOf(g, q, color)
    ensures r.None? ==> forall q :: InBounds(q) && !Before(q, Pos(i, j)) ==> !IsKingOf(g, q, color)
    decreases Size - i, Size - j
  {
    if i == Size then None
    else if j == Size then KingFrom(g, color, i + 1, 0)
    else if IsKingOf(g, Pos(i, j), color) then Some(Pos(i, j))
    else KingFrom(g, color, i, j + 1)
  }

  /**
   * `findKingCell`: the first King of `color` in row-major order; `None` stands for
   * the error thrown when there is none.
   */
  function FindKing(g: Grid, color: Color): (r: Option<Pos>)
    requires WellFormed(g)
    ensures r.Some? ==> InBounds(r.value) && IsKingOf(g, r.value, color)
    ensures r.Some? ==> forall q :: InBounds(q) && Before(q, r.value) ==> !IsKingOf(g, q, color)
    ensures r.None? ==> forall q :: InBounds(q) ==> !IsKingOf(g, q, color)
  {
    KingFrom(g, color, 0, 0)
  }

  /** A King of `color` with none before it in row-major order is the one `findKingCell` returns. */
  lemma FirstKingFound(g: Grid, color: Color, p: Pos)
    requires WellFormed(g) && InBounds(p) && IsKingOf(g, p, color)
    requires forall q :: InBounds(q) && Before(q, p) ==> !IsKingOf(g, q, color)
    ensures FindKing(g, color) == Some(p)
  {
    var first := FindKing(g, color);
    assert first.Some? && !Before(first.value, p) && !Before(p, first.value);
  }

  /**
   * `setOnMoveAction`: refuses a teammate's cell and a cell holding a King;
   * otherwise marks `to` Target when occupied, OnWay when empty, and installs the
   * move `from` -> `to` as its action.
   */
  function InstallMove(g: Grid, from: Pos, to: Pos): (r: Result<Grid>)
    requires WellFormed(g) && InBounds(from) && InBounds(to)
    ensures r.Err? <==> IsTeammates(At(g, from), At(g, to)) || HoldsKind(g, to, White, {King}) || HoldsKind(g, to, Black, {King})
    ensures r.Err? && IsTeammates(At(g, from), At(g, to)) ==> r.fault == TeammateDestination
    ensures r.Err? && !IsTeammates(At(g, from), At(g, to)) ==> r.fault == KingDestination
    ensures r.Ok? ==> WellFormed(r.value)
    ensures r.Ok? ==> At(r.value, to).figure == At(g, to).figure && At(r.value, to).action == MoveAction(from, to)
    ensures r.Ok? ==> (At(r.value, to).status == Target <==> !IsEmpty(g, to))
    ensures r.Ok? ==> (At(r.value, to).status == OnWay <==> IsEmpty(g, to))
    ensures r.Ok? ==> forall q :: InBounds(q) && q != to ==> At(r.value, q) == At(g, q)
  {
    if IsTeammates(At(g, from), At(g, to)) then Err(TeammateDestination)
    else if At(g, to).figure.Some? && At(g, to).figure.value.figureName == King then Err(KingDestination)
    else Ok(SetStatus(g, to, if At(g, to).figure.Some? then Target else OnWay, MoveAction(from, to)))
  }

  /** The figure that arrives on a square: a Pawn arrives marked as moved. */
  function Landed(f: Option<Figure>): (r: Option<Figure>)
    ensures r.Some? <==> f.Some?
    ensures r.Some? ==> r.value.figureName == f.value.figureName && r.value.color == f.value.color
    ensures r.Some? && r.value.figureName == Pawn ==> r.value.moved
    ensures r.Some? && r.value.figureName != Pawn ==> r == f
  {
    if f.Some? && f.value.figureName == Pawn then Some(f.value.(moved := true)) else f
  }

  /**
   * The body of the closure `getOnMoveAction` builds, between its two hooks: the
   * figure of `from` goes to `to`, `from` is emptied, and a Pawn that lands is
   * marked as moved. Statuses and actions are not touched.
   */
  function Relocate(g: Grid, from: Pos, to: Pos): (r: Grid)
    requires WellFormed(g) && InBounds(from) && InBounds(to)
    ensures WellFormed(r)
    ensures from != to ==> At(r, to) == At(g, to).(figure := Landed(At(g, from).figure))
    ensures At(r, from) == At(g, from).(figure := None)
    ensures forall q :: InBounds(q) && q != from && q != to ==> At(r, q) == At(g, q)
  {
    var g1 := SetFigure(g, to, At(g, from).figure);
    var g2 := SetFigure(g1, from, None);
    var landed := At(g2, to).figure;
    if landed.Some? && landed.value.figureName == Pawn then SetFigure(g2, to, Some(landed.value.(moved := true)))
    else g2
  }

  // ---------------------------------------------------------------------------
  // The traversals, characterised geometrically
  // ---------------------------------------------------------------------------

  /** Every square strictly between `p` and the square `n` steps along `d` is on the board and empty or ignored. */
  ghost predicate ClearUpTo(g: Grid, p: Pos, d: Offset, n: int, ignored: Option<Pos>)
    requires WellFormed(g)
  {
    forall j :: 1 <= j < n ==> InBounds(Along(p, d, j)) && (IsEmpty(g, Along(p, d, j)) || ignored == Some(Along(p, d, j)))
  }

  /** Stepping once from `p` and then `n` times lands where `n + 1` steps from `p` do. */
  lemma AlongShift(p: Pos, d: Offset, n: int)
    requires IsUnit(d)
    ensures Along(p, d, 1) == Shift(p, d) && Along(Shift(p, d), d, n) == Along(p, d, n + 1)
  {
  }

  /** A clear stretch of `n + 1` steps from `p` starts with a clear step, followed by a clear stretch of `n` steps. */
  lemma ClearUpToTail(g: Grid, p: Pos, d: Offset, n: int, ignored: Option<Pos>)
    requires WellFormed(g) && IsUnit(d) && n >= 1
    requires ClearUpTo(g, p, d, n + 1, ignored)
    ensures InBounds(Shift(p, d)) && (IsEmpty(g, Shift(p, d)) || ignored == Some(Shift(p, d)))
    ensures ClearUpTo(g, Shift(p, d), d, n, ignored)
  {
    var next := Shift(p, d);
    AlongShift(p, d, 0);
    forall j | 1 <= j < n
      ensures InBounds(Along(next, d, j)) && (IsEmpty(g, Along(next, d, j)) || ignored == Some(Along(next, d, j)))
    {
      AlongShift(p, d, j);
    }
  }

  /** A clear step from `p` followed by a clear stretch of `n` steps is a clear stretch of `n + 1` steps. */
  lemma ClearUpToCons(g: Grid, p: Pos, d: Offset, n: int, ignored: Option<Pos>)
    requires WellFormed(g) && IsUnit(d) && n >= 0
    requires InBounds(Shift(p, d)) && (IsEmpty(g, Shift(p, d)) || ignored == Some(Shift(p, d)))
    requires ClearUpTo(g, Shift(p, d), d, n, ignored)
    ensures ClearUpTo(g, p, d, n + 1, ignored)
  {
    var next := Shift(p, d);
    forall j | 1 <= j < n + 1
      ensures InBounds(Along(p, d, j)) && (IsEmpty(g, Along(p, d, j)) || ignored == Some(Along(p, d, j)))
    {
      AlongShift(p, d, j - 1);
    }
  }

  /** A square past a clear stretch of the ray, not ignored and passable, is yielded by the ray. */
  lemma {:induction false} RayContains(g: Grid, p: Pos, d: Offset, enemy: Color, ignored: Option<Pos>, n: int)
    requires WellFormed(g) && InBounds(p) && IsUnit(d) && n >= 1
    requires InBounds(Along(p, d, n)) && ignored != Some(Along(p, d, n)) && Passable(g, Along(p, d, n), enemy)
    requires ClearUpTo(g, p, d, n, ignored)
    ensures Along(p, d, n) in Ray(g, p, d, enemy, ignored)
    decreases n
  {
    var next := Shift(p, d);
    AlongShift(p, d, n - 1);
    if n > 1 {
      ClearUpToTail(g, p, d, n - 1, ignored);
      RayContains(g, next, d, enemy, ignored, n - 1);
    }
  }

  /** Conversely, every square the ray yields lies `n` steps along it, past a clear stretch. */
  lemma {:induction false} RayMember(g: Grid, p: Pos, d: Offset, enemy: Color, ignored: Option<Pos>, q: Pos) returns (n: int)
    requires WellFormed(g) && InBounds(p) && IsUnit(d)
    requires q in Ray(g, p, d, enemy, ignored)
    ensures n >= 1 && q == Along(p, d, n) && ClearUpTo(g, p, d, n, ignored)
    decreases Remaining(p, d)
  {
    var next := Shift(p, d);
    AlongShift(p, d, 0);
    if q == next && ignored != Some(next) {
      n := 1;
    } else {
      assert q in Ray(g, next, d, enemy, ignored);
      assert IsEmpty(g, next) || ignored == Some(next);
      var m := RayMember(g, next, d, enemy, ignored, q);
      ClearUpToCons(g, p, d, m, ignored);
      AlongShift(p, d, m);
      n := m + 1;
    }
  }

  /** A ray stops at the first occupied square: every square it yields but the last is empty. */
  lemma {:induction false} RayStopsAtFirstFigure(g: Grid, p: Pos, d: Offset, enemy: Color, ignored: Option<Pos>)
    requires WellFormed(g) && InBounds(p) && IsUnit(d)
    ensures forall i :: 0 <= i < |Ray(g, p, d, enemy, ignored)| - 1 ==> IsEmpty(g, Ray(g, p, d, enemy, ignored)[i])
    decreases Remaining(p, d)
  {
    var next := Shift(p, d);
    if InBounds(next) && (ignored == Some(next) || IsEmpty(g, next)) {
      RayStopsAtFirstFigure(g, next, d, enemy, ignored);
      var r := Ray(g, p, d, enemy, ignored);
      var rest := Ray(g, next, d, enemy, ignored);
      if ignored != Some(next) {
        assert r == [next] + rest;
        forall i | 0 <= i < |r| - 1 ensures IsEmpty(g, r[i]) {
          if i > 0 {
            assert r[i] == rest[i - 1];
            assert 0 <= i - 1 < |rest| - 1;
          }
        }
      }
    }
  }

  /** Dropping the last direction keeps every direction a unit one. */
  lemma AllUnitPrefix(dirs: seq<Offset>)
    requires AllUnit(dirs) && dirs != []
    ensures AllUnit(dirs[..|dirs| - 1])
  {
    var init := dirs[..|dirs| - 1];
    forall k | 0 <= k < |init| ensures IsUnit(init[k]) {
      assert init[k] == dirs[k];
    }
  }

  /** The concatenated rays of `dirs` are those of all but the last direction, then the last ray. */
  lemma LinesMemberSnoc(g: Grid, p: Pos, dirs: seq<Offset>, enemy: Color, ignored: Option<Pos>)
    requires WellFormed(g) && InBounds(p) && AllUnit(dirs) && dirs != []
    ensures AllUnit(dirs[..|dirs| - 1])
    ensures Lines(g, p, dirs, enemy, ignored) == Lines(g, p, dirs[..|dirs| - 1], enemy, ignored) + Ray(g, p, dirs[|dirs| - 1], enemy, ignored)
  {
    AllUnitPrefix(dirs);
  }

  /** The index of a ray of `dirs` that yields a square on the concatenated rays. */
  lemma {:induction false} LinesMemberWitness(g: Grid, p: Pos, dirs: seq<Offset>, enemy: Color, ignored: Option<Pos>, q: Pos) returns (i: int)
    requires WellFormed(g) && InBounds(p) && AllUnit(dirs)
    requires q in Lines(g, p, dirs, enemy, ignored)
    ensures 0 <= i < |dirs| && q in Ray(g, p, dirs[i], enemy, ignored)
    decreases |dirs|
  {
    var init := dirs[..|dirs| - 1];
    LinesMemberSnoc(g, p, dirs, enemy, ignored);
    if q in Lines(g, p, init, enemy, ignored) {
      i := LinesMemberWitness(g, p, init, enemy, ignored, q);
      assert init[i] == dirs[i];
    } else {
      i := |dirs| - 1;
    }
  }

  /** Every square the `i`-th ray yields is on the concatenated rays. */
  lemma {:induction false} LinesMemberCovers(g: Grid, p: Pos, dirs: seq<Offset>, enemy: Color, ignored: Option<Pos>, q: Pos, i: int)
    requires WellFormed(g) && InBounds(p) && AllUnit(dirs)
    requires 0 <= i < |dirs| && q in Ray(g, p, dirs[i], enemy, ignored)
    ensures q in Lines(g, p, dirs, enemy, ignored)
    decreases |dirs|
  {
    var init := dirs[..|dirs| - 1];
    LinesMemberSnoc(g, p, dirs, enemy, ignored);
    if i < |init| {
      assert init[i] == dirs[i];
      LinesMemberCovers(g, p, init, enemy, ignored, q, i);
    }
  }

  /** A square is on the concatenated rays exactly when one of the rays yields it. */
  lemma LinesMember(g: Grid, p: Pos, dirs: seq<Offset>, enemy: Color, ignored: Option<Pos>, q: Pos)
    requires WellFormed(g) && InBounds(p) && AllUnit(dirs)
    ensures q in Lines(g, p, dirs, enemy, ignored) <==> exists i :: 0 <= i < |dirs| && q in Ray(g, p, dirs[i], enemy, ignored)
  {
    if q in Lines(g, p, dirs, enemy, ignored) {
      var i := LinesMemberWitness(g, p, dirs, enemy, ignored, q);
    }
    if i :| 0 <= i < |dirs| && q in Ray(g, p, dirs[i], enemy, ignored) {
      LinesMemberCovers(g, p, dirs, enemy, ignored, q, i);
    }
  }

  /** `q` lies `n` steps from `p` along one of `dirs`, with a clear stretch between them. */
  ghost predicate SeesAlong(g: Grid, p: Pos, q: Pos, dirs: seq<Offset>, ignored: Option<Pos>)
    requires WellFormed(g)
  {
    exists i, n :: 0 <= i < |dirs| && n >= 1 && q == Along(p, dirs[i], n) && ClearUpTo(g, p, dirs[i], n, ignored)
  }

  /** The concatenated rays yield exactly the passable, non-ignored squares seen along a direction. */
  lemma LinesIff(g: Grid, p: Pos, dirs: seq<Offset>, enemy: Color, ignored: Option<Pos>, q: Pos)
    requires WellFormed(g) && InBounds(p) && AllUnit(dirs)
    ensures q in Lines(g, p, dirs, enemy, ignored) <==>
      InBounds(q) && Passable(g, q, enemy) && ignored != Some(q) && SeesAlong(g, p, q, dirs, ignored)
  {
    LinesMember(g, p, dirs, enemy, ignored, q);
    if q in Lines(g, p, dirs, enemy, ignored) {
      var i :| 0 <= i < |dirs| && q in Ray(g, p, dirs[i], enemy, ignored);
      var n := RayMember(g, p, dirs[i], enemy, ignored, q);
    }
    if InBounds(q) && Passable(g, q, enemy) && ignored != Some(q) && SeesAlong(g, p, q, dirs, ignored) {
      var i, n :| 0 <= i < |dirs| && n >= 1 && q == Along(p, dirs[i], n) && ClearUpTo(g, p, dirs[i], n, ignored);
      RayContains(g, p, dirs[i], enemy, ignored, n);
    }
  }

  /** `q` is one of the eight squares around `p`. */
  predicate Adjacent(p: Pos, q: Pos) {
    q != p && -1 <= q.row - p.row <= 1 && -1 <= q.col - p.col <= 1
  }

  /** `q` is a knight's jump away from `p`. */
  predicate KnightJump(p: Pos, q: Pos) {
    var dr := q.row - p.row;
    var dc := q.col - p.col;
    ((dr == 1 || dr == -1) && (dc == 2 || dc == -2)) || ((dr == 2 || dr == -2) && (dc == 1 || dc == -1))
  }

  /** The king's steps reach the squares next to `p` that are on the board, not ignored and passable. */
  lemma KingStepsIff(g: Grid, p: Pos, enemy: Color, ignored: Option<Pos>, q: Pos)
    requires WellFormed(g) && InBounds(p)
    ensures q in Steps(g, p, KingOffsets, enemy, ignored) <==>
      InBounds(q) && Adjacent(p, q) && ignored != Some(q) && Passable(g, q, enemy)
  {
    StepsMember(g, p, KingOffsets, enemy, ignored, q);
    if q in Steps(g, p, KingOffsets, enemy, ignored) {
      var i :| 0 <= i < |KingOffsets| && q == Shift(p, KingOffsets[i]);
      assert AllUnit(KingOffsets);
      assert IsUnit(KingOffsets[i]);
    }
    if Adjacent(p, q) {
      var o := Offset(q.row - p.row, q.col - p.col);
      assert o in KingOffsets;
      assert q == Shift(p, o);
    }
  }

  /** A knight's jump: one row and two columns, or two rows and one column, in any direction. */
  predicate IsJump(o: Offset) {
    ((o.dr == 1 || o.dr == -1) && (o.dc == 2 || o.dc == -2)) || ((o.dr == 2 || o.dr == -2) && (o.dc == 1 || o.dc == -1))
  }

  /** The knight's jumps reach the squares a jump away from `p` that are on the board, not ignored and passable. */
  lemma KnightStepsIff(g: Grid, p: Pos, enemy: Color, ignored: Option<Pos>, q: Pos)
    requires WellFormed(g) && InBounds(p)
    ensures q in Steps(g, p, KnightOffsets, enemy, ignored) <==>
      InBounds(q) && KnightJump(p, q) && ignored != Some(q) && Passable(g, q, enemy)
  {
    StepsMember(g, p, KnightOffsets, enemy, ignored, q);
    if q in Steps(g, p, KnightOffsets, enemy, ignored) {
      var i :| 0 <= i < |KnightOffsets| && q == Shift(p, KnightOffsets[i]);
      assert forall k | 0 <= k < |KnightOffsets| :: IsJump(KnightOffsets[k]);
      assert IsJump(KnightOffsets[i]);
    }
    if KnightJump(p, q) {
      var o := Offset(q.row - p.row, q.col - p.col);
      assert o in KnightOffsets;
      assert q == Shift(p, o);
    }
  }

  /** The figure at `q` is a rook or queen that sees `p` along a clear straight line. */
  ghost predicate ReachesStraight(g: Grid, q: Pos, p: Pos, ignored: Option<Pos>)
    requires WellFormed(g) && InBounds(q) && At(g, q).figure.Some?
  {
    var kind := At(g, q).figure.value.figureName;
    (kind == Rook || kind == Queen) && ignored != Some(q) && SeesAlong(g, p, q, StraightDirections, ignored)
  }

  /** The figure at `q` is a bishop or queen that sees `p` along a clear diagonal. */
  ghost predicate ReachesDiagonal(g: Grid, q: Pos, p: Pos, ignored: Option<Pos>)
    requires WellFormed(g) && InBounds(q) && At(g, q).figure.Some?
  {
    var kind := At(g, q).figure.value.figureName;
    (kind == Bishop || kind == Queen) && ignored != Some(q) && SeesAlong(g, p, q, DiagonalDirections, ignored)
  }

  /**
   * The attack relation of `getReachingEnemyCells`, stated on the board's geometry:
   * the figure at `q` reaches `p` when it is a rook or queen on a clear straight
   * line, a bishop or queen on a clear diagonal (the ignored cell counting as
   * clear and never reaching), a king next to `p` on a square that is not ignored,
   * a knight a jump away, or any figure on one of the pawn squares of `p`.
   */
  ghost predicate Reaches(g: Grid, q: Pos, p: Pos, enemy: Color, ignored: Option<Pos>)
    requires WellFormed(g) && InBounds(q) && HoldsColor(g, q, enemy)
  {
    var kind := At(g, q).figure.value.figureName;
    || ReachesStraight(g, q, p, ignored)
    || ReachesDiagonal(g, q, p, ignored)
    || (kind == King && ignored != Some(q) && Adjacent(p, q))
    || (kind == Knight && KnightJump(p, q))
    || q in PawnAttackSquares(p, enemy)
  }

  /** Membership in one contribution of `getReachingEnemyCells`. */
  lemma HoldingIff(g: Grid, ps: seq<Pos>, c: Color, kinds: set<FigureName>, q: Pos)
    requires WellFormed(g) && AllInBounds(ps)
    ensures q in Holding(g, ps, c, kinds) <==> q in ps && HoldsKind(g, q, c, kinds)
  {
  }

  lemma StraightPart(g: Grid, cell: Pos, enemy: Color, ignored: Option<Pos>, q: Pos)
    requires WellFormed(g) && InBounds(cell) && InBounds(q) && HoldsColor(g, q, enemy)
    ensures AllUnit(StraightDirections)
    ensures q in Holding(g, Lines(g, cell, StraightDirections, enemy, ignored), enemy, {Rook, Queen}) <==>
      ReachesStraight(g, q, cell, ignored)
  {
    assert AllUnit(StraightDirections);
    LinesIff(g, cell, StraightDirections, enemy, ignored, q);
    HoldingIff(g, Lines(g, cell, StraightDirections, enemy, ignored), enemy, {Rook, Queen}, q);
  }

  lemma DiagonalPart(g: Grid, cell: Pos, enemy: Color, ignored: Option<Pos>, q: Pos)
    requires WellFormed(g) && InBounds(cell) && InBounds(q) && HoldsColor(g, q, enemy)
    ensures AllUnit(DiagonalDirections)
    ensures q in Holding(g, Lines(g, cell, DiagonalDirections, enemy, ignored), enemy, {Bishop, Queen}) <==>
      ReachesDiagonal(g, q, cell, ignored)
  {
    assert AllUnit(DiagonalDirections);
    LinesIff(g, cell, DiagonalDirections, enemy, ignored, q);
    HoldingIff(g, Lines(g, cell, DiagonalDirections, enemy, ignored), enemy, {Bishop, Queen}, q);
  }

  lemma KingPart(g: Grid, cell: Pos, enemy: Color, ignored: Option<Pos>, q: Pos)
    requires WellFormed(g) && InBounds(cell) && InBounds(q) && HoldsColor(g, q, enemy)
    ensures q in Holding(g, Steps(g, cell, KingOffsets, enemy, ignored), enemy, {King}) <==>
      At(g, q).figure.value.figureName == King && ignored != Some(q) && Adjacent(cell, q)
  {
    KingStepsIff(g, cell, enemy, ignored, q);
    HoldingIff(g, Steps(g, cell, KingOffsets, enemy, ignored), enemy, {King}, q);
  }

  lemma KnightPart(g: Grid, cell: Pos, enemy: Color, q: Pos)
    requires WellFormed(g) && InBounds(cell) && InBounds(q) && HoldsColor(g, q, enemy)
    ensures q in Holding(g, Steps(g, cell, KnightOffsets, enemy, None), enemy, {Knight}) <==>
      At(g, q).figure.value.figureName == Knight && KnightJump(cell, q)
  {
    KnightStepsIff(g, cell, enemy, None, q);
    HoldingIff(g, Steps(g, cell, KnightOffsets, enemy, None), enemy, {Knight}, q);
  }

  /** `getReachingEnemyCells` is its five searches, one after the other. */
  lemma ReachingEnemyCellsSplit(g: Grid, cell: Pos, enemy: Color, ignored: Option<Pos>)
    requires WellFormed(g) && InBounds(cell)
    ensures AllUnit(StraightDirections) && AllUnit(DiagonalDirections)
    ensures ReachingEnemyCells(g, cell, enemy, ignored) ==
      Holding(g, Lines(g, cell, StraightDirections, enemy, ignored), enemy, {Rook, Queen})
      + Holding(g, Lines(g, cell, DiagonalDirections, enemy, ignored), enemy, {Bishop, Queen})
      + Holding(g, Steps(g, cell, KingOffsets, enemy, ignored), enemy, {King})
      + Holding(g, Steps(g, cell, KnightOffsets, enemy, None), enemy, {Knight})
      + Holding(g, PawnSquaresOnBoard(cell, enemy), enemy, AllKinds)
  {
    assert AllUnit(StraightDirections) && AllUnit(DiagonalDirections);
  }

  lemma ReachingEnemyCellsParts(g: Grid, cell: Pos, enemy: Color, ignored: Option<Pos>, q: Pos)
    requires WellFormed(g) && InBounds(cell)
    ensures AllUnit(StraightDirections) && AllUnit(DiagonalDirections)
    ensures q in ReachingEnemyCells(g, cell, enemy, ignored) <==>
      || q in Holding(g, Lines(g, cell, StraightDirections, enemy, ignored), enemy, {Rook, Queen})
      || q in Holding(g, Lines(g, cell, DiagonalDirections, enemy, ignored), enemy, {Bishop, Queen})
      || q in Holding(g, Steps(g, cell, KingOffsets, enemy, ignored), enemy, {King})
      || q in Holding(g, Steps(g, cell, KnightOffsets, enemy, None), enemy, {Knight})
      || q in Holding(g, PawnSquaresOnBoard(cell, enemy), enemy, AllKinds)
  {
    assert AllUnit(StraightDirections) && AllUnit(DiagonalDirections);
  }

  /** `getReachingEnemyCells` returns exactly the `enemy` figures that reach `cell`. */
  lemma ReachingEnemyCellsIff(g: Grid, cell: Pos, enemy: Color, ignored: Option<Pos>, q: Pos)
    requires WellFormed(g) && InBounds(cell)
    ensures q in ReachingEnemyCells(g, cell, enemy, ignored) <==>
      InBounds(q) && HoldsColor(g, q, enemy) && Reaches(g, q, cell, enemy, ignored)
  {
    ReachingEnemyCellsParts(g, cell, enemy, ignored, q);
    if InBounds(q) && HoldsColor(g, q, enemy) {
      StraightPart(g, cell, enemy, ignored, q);
      DiagonalPart(g, cell, enemy, ignored, q);
      KingPart(g, cell, enemy, ignored, q);
      KnightPart(g, cell, enemy, q);
      HoldingIff(g, PawnSquaresOnBoard(cell, enemy), enemy, AllKinds, q);
    }
  }

  /** `isTeammates` and `isEnemies` are symmetric, exclusive, and both false unless both cells are occupied. */
  lemma TeamRelations(a: Cell, b: Cell)
    ensures IsTeammates(a, b) == IsTeammates(b, a) && IsEnemies(a, b) == IsEnemies(b, a)
    ensures !(IsTeammates(a, b) && IsEnemies(a, b))
    ensures IsTeammates(a, b) || IsEnemies(a, b) <==> a.figure.Some? && b.figure.Some?
  {
  }

  /**
   * The squares a pawn may go to: one ahead onto an empty square, two ahead from
   * an unmoved pawn over an empty square onto an empty one, or one ahead
   * diagonally onto an `enemy` figure.
   */
  ghost predicate PawnTarget(g: Grid, p: Pos, q: Pos, enemy: Color)
    requires WellFormed(g) && InBounds(p) && InBounds(q) && At(g, p).figure.Some?
  {
    var a := PawnAdvance(enemy);
    var ahead := Pos(p.row + a, p.col);
    || (q == ahead && IsEmpty(g, q))
    || (q == Pos(p.row + 2 * a, p.col) && !At(g, p).figure.value.moved && InBounds(ahead) && IsEmpty(g, ahead) && IsEmpty(g, q))
    || (q.row == p.row + a && (q.col == p.col - 1 || q.col == p.col + 1) && HoldsColor(g, q, enemy))
  }

  /**
   * The pawn walk of a pawn against the opposite colour yields exactly its targets,
   * unless the unchecked two-square read leaves the board: that happens exactly
   * for an unmoved pawn, with the square ahead empty, standing on the last row but
   * one in its direction, and then only the square ahead is yielded before it.
   */
  lemma PawnWalkIff(g: Grid, p: Pos, q: Pos)
    requires WellFormed(g) && InBounds(p) && At(g, p).figure.Some? && At(g, p).figure.value.figureName == Pawn
    ensures var f := At(g, p).figure.value;
      var enemy := Opponent(f.color);
      var w := PawnWalk(g, p, enemy);
      var ahead := Pos(p.row + PawnAdvance(enemy), p.col);
      && (w.fault.Some? <==> !f.moved && InBounds(ahead) && IsEmpty(g, ahead) && !(0 <= p.row + 2 * PawnAdvance(enemy) < Size))
      && (w.fault.Some? ==> w.squares == [ahead])
      && (w.fault.None? ==> (q in w.squares <==> InBounds(q) && PawnTarget(g, p, q, enemy)))
  {
  }

  /**
   * A square a King at `p` may step to: next to it, on the board, empty or held by
   * the other colour, and reached by no enemy once the King's own square is ignored.
   */
  predicate SafeKingStep(g: Grid, p: Pos, q: Pos, enemy: Color)
    requires WellFormed(g)
  {
    InBounds(q) && Adjacent(p, q) && Passable(g, q, enemy) && ReachingEnemyCells(g, q, enemy, Some(p)) == []
  }

  lemma KingMoveHasSafeStep(g: Grid, p: Pos)
    requires WellFormed(g) && InBounds(p) && At(g, p).figure.Some? && At(g, p).figure.value.figureName == King
    requires CanMoveFrom(g, p)
    ensures exists q :: SafeKingStep(g, p, q, Opponent(At(g, p).figure.value.color))
  {
    var enemy := Opponent(At(g, p).figure.value.color);
    var near := Steps(g, p, KingOffsets, enemy, None);
    var i :| 0 <= i < |near| && KingMayGo(g, p, near[i], enemy);
    KingStepsIff(g, p, enemy, None, near[i]);
    assert SafeKingStep(g, p, near[i], enemy);
  }

  lemma SafeStepLetsKingMove(g: Grid, p: Pos, q: Pos)
    requires WellFormed(g) && InBounds(p) && At(g, p).figure.Some? && At(g, p).figure.value.figureName == King
    requires SafeKingStep(g, p, q, Opponent(At(g, p).figure.value.color))
    ensures CanMoveFrom(g, p)
  {
    var enemy := Opponent(At(g, p).figure.value.color);
    var near := Steps(g, p, KingOffsets, enemy, None);
    KingStepsIff(g, p, enemy, None, q);
    var i :| 0 <= i < |near| && near[i] == q;
    assert KingMayGo(g, p, near[i], enemy);
  }

  /** A King can move exactly when it has a safe step. */
  lemma CanMoveFromKingIff(g: Grid, p: Pos)
    requires WellFormed(g) && InBounds(p) && At(g, p).figure.Some? && At(g, p).figure.value.figureName == King
    ensures CanMoveFrom(g, p) <==> exists q :: SafeKingStep(g, p, q, Opponent(At(g, p).figure.value.color))
  {
    if CanMoveFrom(g, p) {
      KingMoveHasSafeStep(g, p);
    }
    if q :| SafeKingStep(g, p, q, Opponent(At(g, p).figure.value.color)) {
      SafeStepLetsKingMove(g, p, q);
    }
  }

  /** Any other figure can move exactly when its pattern yields a square. */
  lemma CanMoveFromOtherIff(g: Grid, p: Pos)
    requires WellFormed(g) && InBounds(p) && At(g, p).figure.Some? && At(g, p).figure.value.figureName != King
    ensures CanMoveFrom(g, p) <==> PatternWalk(g, p, Opponent(At(g, p).figure.value.color), None).squares != []
  {
    var w := PatternWalk(g, p, Opponent(At(g, p).figure.value.color), None);
    if w.squares != [] {
      var q := w.squares[0];
      assert q in w.squares;
      assert Passable(g, q, Opponent(At(g, p).figure.value.color));
      assert !IsTeammates(At(g, p), At(g, q));
    }
  }

  /** One more square of `near` where the King may not go extends the blocked prefix. */
  lemma BlockedPrefix(g: Grid, origin: Pos, near: seq<Pos>, i: int, enemy: Color)
    requires WellFormed(g) && InBounds(origin) && AllInBounds(near) && 0 <= i < |near|
    requires forall j :: 0 <= j < i ==> !KingMayGo(g, origin, near[j], enemy)
    requires !KingMayGo(g, origin, near[i], enemy)
    ensures forall j :: 0 <= j < i + 1 ==> !KingMayGo(g, origin, near[j], enemy)
  {
  }

  // ---------------------------------------------------------------------------
  // The queries read figures only
  // ---------------------------------------------------------------------------

  /** A ray depends on the figures of the board only, not on statuses or actions. */
  lemma {:induction false} RaySameFigures(g: Grid, h: Grid, p: Pos, d: Offset, enemy: Color, ignored: Option<Pos>)
    requires WellFormed(g) && WellFormed(h) && SameFigures(g, h) && InBounds(p) && IsUnit(d)
    ensures Ray(g, p, d, enemy, ignored) == Ray(h, p, d, enemy, ignored)
    decreases Remaining(p, d)
  {
    var next := Shift(p, d);
    if InBounds(next) {
      assert At(g, next).figure == At(h, next).figure;
      RaySameFigures(g, h, next, d, enemy, ignored);
    }
  }

  lemma {:induction false} LinesSameFigures(g: Grid, h: Grid, p: Pos, dirs: seq<Offset>, enemy: Color, ignored: Option<Pos>)
    requires WellFormed(g) && WellFormed(h) && SameFigures(g, h) && InBounds(p) && AllUnit(dirs)
    ensures Lines(g, p, dirs, enemy, ignored) == Lines(h, p, dirs, enemy, ignored)
    decreases |dirs|
  {
    if dirs != [] {
      LinesSameFigures(g, h, p, dirs[..|dirs| - 1], enemy, ignored);
      RaySameFigures(g, h, p, dirs[|dirs| - 1], enemy, ignored);
    }
  }

  lemma {:induction false} StepsSameFigures(g: Grid, h: Grid, p: Pos, offsets: seq<Offset>, enemy: Color, ignored: Option<Pos>)
    requires WellFormed(g) && WellFormed(h) && SameFigures(g, h) && InBounds(p)
    ensures Steps(g, p, offsets, enemy, ignored) == Steps(h, p, offsets, enemy, ignored)
    decreases |offsets|
  {
    if offsets != [] {
      StepsSameFigures(g, h, p, offsets[..|offsets| - 1], enemy, ignored);
      var q := Shift(p, offsets[|offsets| - 1]);
      if InBounds(q) {
        assert At(g, q).figure == At(h, q).figure;
        assert Passable(g, q, enemy) == Passable(h, q, enemy);
      }
    }
  }

  lemma {:induction false} HoldingSameFigures(g: Grid, h: Grid, ps: seq<Pos>, c: Color, kinds: set<FigureName>)
    requires WellFormed(g) && WellFormed(h) && SameFigures(g, h) && AllInBounds(ps)
    ensures Holding(g, ps, c, kinds) == Holding(h, ps, c, kinds)
    decreases |ps|
  {
    if ps != [] {
      HoldingSameFigures(g, h, ps[..|ps| - 1], c, kinds);
      assert At(g, ps[|ps| - 1]).figure == At(h, ps[|ps| - 1]).figure;
    }
  }

  /** `getReachingEnemyCells` reads the figures of the board only. */
  lemma ReachingSameFigures(g: Grid, h: Grid, cell: Pos, enemy: Color, ignored: Option<Pos>)
    requires WellFormed(g) && WellFormed(h) && SameFigures(g, h) && InBounds(cell)
    ensures ReachingEnemyCells(g, cell, enemy, ignored) == ReachingEnemyCells(h, cell, enemy, ignored)
  {
    ReachingEnemyCellsSplit(g, cell, enemy, ignored);
    ReachingEnemyCellsSplit(h, cell, enemy, ignored);
    LinesSameFigures(g, h, cell, StraightDirections, enemy, ignored);
    LinesSameFigures(g, h, cell, DiagonalDirections, enemy, ignored);
    StepsSameFigures(g, h, cell, KingOffsets, enemy, ignored);
    StepsSameFigures(g, h, cell, KnightOffsets, enemy, None);
    HoldingSameFigures(g, h, Lines(g, cell, StraightDirections, enemy, ignored), enemy, {Rook, Queen});
    HoldingSameFigures(g, h, Lines(g, cell, DiagonalDirections, enemy, ignored), enemy, {Bishop, Queen});
    HoldingSameFigures(g, h, Steps(g, cell, KingOffsets, enemy, ignored), enemy, {King});
    HoldingSameFigures(g, h, Steps(g, cell, KnightOffsets, enemy, None), enemy, {Knight});
    HoldingSameFigures(g, h, PawnSquaresOnBoard(cell, enemy), enemy, AllKinds);
  }

  lemma PawnWalkSameFigures(g: Grid, h: Grid, p: Pos, enemy: Color)
    requires WellFormed(g) && WellFormed(h) && SameFigures(g, h) && InBounds(p)
    ensures PawnWalk(g, p, enemy) == PawnWalk(h, p, enemy)
  {
    assert At(g, p).figure == At(h, p).figure;
    var f := At(g, p).figure;
    if f.Some? && f.value.figureName == Pawn {
      PawnPushesSameFigures(g, h, p, enemy, f.value.moved);
      PawnCapturesSameFigures(g, h, p, enemy, f.value.color);
    }
  }

  lemma PawnPushesSameFigures(g: Grid, h: Grid, p: Pos, enemy: Color, moved: bool)
    requires WellFormed(g) && WellFormed(h) && SameFigures(g, h)
    ensures PawnPushes(g, p, enemy, moved) == PawnPushes(h, p, enemy, moved)
  {
    var ahead := Pos(p.row + PawnAdvance(enemy), p.col);
    var twoAhead := Pos(p.row + 2 * PawnAdvance(enemy), p.col);
    if InBounds(ahead) {
      assert At(g, ahead).figure == At(h, ahead).figure;
    }
    if InBounds(twoAhead) {
      assert At(g, twoAhead).figure == At(h, twoAhead).figure;
    }
  }

  lemma PawnCapturesSameFigures(g: Grid, h: Grid, p: Pos, enemy: Color, color: Color)
    requires WellFormed(g) && WellFormed(h) && SameFigures(g, h)
    ensures PawnCaptures(g, p, enemy, color) == PawnCaptures(h, p, enemy, color)
  {
    var left := Pos(p.row + PawnAdvance(enemy), p.col + 1);
    var right := Pos(p.row + (if color == White then -1 else 1), p.col - 1);
    if InBounds(left) {
      assert At(g, left).figure == At(h, left).figure;
    }
    if InBounds(right) {
      assert At(g, right).figure == At(h, right).figure;
    }
  }

  /** `processForCellsFigurePattern` reads the figures of the board only. */
  lemma PatternSameFigures(g: Grid, h: Grid, p: Pos, enemy: Color, ignored: Option<Pos>)
    requires WellFormed(g) && WellFormed(h) && SameFigures(g, h) && InBounds(p)
    ensures PatternWalk(g, p, enemy, ignored) == PatternWalk(h, p, enemy, ignored)
  {
    assert AllUnit(StraightDirections) && AllUnit(DiagonalDirections);
    assert At(g, p).figure == At(h, p).figure;
    match At(g, p).figure
    case None =>
    case Some(f) =>
      match f.figureName
      case Rook => LinesSameFigures(g, h, p, StraightDirections, enemy, ignored);
      case Knight => StepsSameFigures(g, h, p, KnightOffsets, enemy, None);
      case Bishop => LinesSameFigures(g, h, p, DiagonalDirections, enemy, ignored);
      case Queen =>
        LinesSameFigures(g, h, p, StraightDirections, enemy, ignored);
        LinesSameFigures(g, h, p, DiagonalDirections, enemy, ignored);
      case King => StepsSameFigures(g, h, p, KingOffsets, enemy, ignored);
      case Pawn => PawnWalkSameFigures(g, h, p, enemy);
  }

  /** `findKingCell` depends on the figures only. */
  lemma FindKingSameFigures(g: Grid, h: Grid, c: Color)
    requires WellFormed(g) && WellFormed(h) && SameFigures(g, h)
    ensures FindKing(g, c) == FindKing(h, c)
  {
    var a := FindKing(g, c);
    var b := FindKing(h, c);
    if a.Some? {
      assert IsKingOf(h, a.value, c);
    }
    if b.Some? {
      assert IsKingOf(g, b.value, c);
    }
    if a.Some? && b.Some? {
      assert !Before(a.value, b.value) && !Before(b.value, a.value);
    }
  }

  /** `canMoveFromCell` reads the figures of the board only. */
  lemma CanMoveSameFigures(g: Grid, h: Grid, p: Pos)
    requires WellFormed(g) && WellFormed(h) && SameFigures(g, h) && InBounds(p)
    ensures CanMoveFrom(g, p) == CanMoveFrom(h, p)
  {
    assert At(g, p).figure == At(h, p).figure;
    var f := At(g, p).figure;
    if f.Some? {
      var enemy := Opponent(f.value.color);
      if f.value.figureName == King {
        var near := Steps(g, p, KingOffsets, enemy, None);
        StepsSameFigures(g, h, p, KingOffsets, enemy, None);
        forall i | 0 <= i < |near|
          ensures KingMayGo(g, p, near[i], enemy) == KingMayGo(h, p, near[i], enemy)
        {
          assert At(g, near[i]).figure == At(h, near[i]).figure;
          ReachingSameFigures(g, h, near[i], enemy, Some(p));
        }
      } else {
        var squares := PatternWalk(g, p, enemy, None).squares;
        PatternSameFigures(g, h, p, enemy, None);
        forall i | 0 <= i < |squares|
          ensures IsTeammates(At(g, p), At(g, squares[i])) == IsTeammates(At(h, p), At(h, squares[i]))
        {
          assert At(g, squares[i]).figure == At(h, squares[i]).figure;
        }
      }
    }
  }

  // ---------------------------------------------------------------------------
  // The class
  // ---------------------------------------------------------------------------

  /** The move generator object; it reads and writes the cells of its board. */
  class ChessMovesManager {
    var chessboard: Chessboard

    constructor (chessboard: Chessboard)
      ensures this.chessboard == chessboard
    {
      this.chessboard := chessboard;
    }

    /** `setChessboard`; the null check of the program has no counterpart for a non-null reference. */
    method SetChessboard(chessboard: Chessboard)
      modifies this
      ensures this.chessboard == chessboard
    {
      this.chessboard := chessboard;
    }

    /** One ray of the `while (true)` loops of the straight and diagonal traversals. */
    method WalkRay(cell: Pos, d: Offset, enemy: Color, ignored: Option<Pos>) returns (yielded: seq<Pos>)
      requires WellFormed(chessboard.cells) && InBounds(cell) && IsUnit(d)
      ensures yielded == Ray(chessboard.cells, cell, d, enemy, ignored)
    {
      var cells := chessboard.cells;
      var nextRow, nextCol := cell.row, cell.col;
      yielded := [];
      while true
        invariant InBounds(Pos(nextRow, nextCol))
        invariant yielded + Ray(cells, Pos(nextRow, nextCol), d, enemy, ignored) == Ray(cells, cell, d, enemy, ignored)
        decreases Remaining(Pos(nextRow, nextCol), d)
      {
        ghost var here := Pos(nextRow, nextCol);
        ghost var done := yielded;
        nextRow, nextCol := nextRow + d.dr, nextCol + d.dc;
        var next := Pos(nextRow, nextCol);
        assert next == Shift(here, d);
        if !InBounds(next) {
          assert Ray(cells, here, d, enemy, ignored) == [];
          break;
        }
        RayStep(cells, here, d, enemy, ignored);
        if ignored == Some(next) {
          continue;
        }
        if IsEmpty(cells, next) || HoldsColor(cells, next, enemy) {
          yielded := yielded + [next];
        }
        if !IsEmpty(cells, next) {
          break;
        }
        AppendAssociates(done, [next], Ray(cells, next, d, enemy, ignored));
      }
    }

    /** `processForVerticalAndHorizontalPatterns` and `processForDiagonalPatterns`: the rays of `dirs` in turn. */
    method WalkLines(cell: Pos, dirs: seq<Offset>, enemy: Color, ignored: Option<Pos>) returns (yielded: seq<Pos>)
      requires WellFormed(chessboard.cells) && InBounds(cell) && AllUnit(dirs)
      ensures yielded == Lines(chessboard.cells, cell, dirs, enemy, ignored)
    {
      yielded := [];
      for k := 0 to |dirs|
        invariant yielded == Lines(chessboard.cells, cell, dirs[..k], enemy, ignored)
      {
        var ray := WalkRay(cell, dirs[k], enemy, ignored);
        assert dirs[..k + 1][..k] == dirs[..k];
        yielded := yielded + ray;
      }
      assert dirs[..|dirs|] == dirs;
    }

    /** `processForKnightPatterns` and `processForKingPatterns`: one square per offset, in order. */
    method WalkSteps(cell: Pos, offsets: seq<Offset>, enemy: Color, ignored: Option<Pos>) returns (yielded: seq<Pos>)
      requires WellFormed(chessboard.cells) && InBounds(cell)
      ensures yielded == Steps(chessboard.cells, cell, offsets, enemy, ignored)
    {
      var cells := chessboard.cells;
      yielded := [];
      for k := 0 to |offsets|
        invariant yielded == Steps(cells, cell, offsets[..k], enemy, ignored)
      {
        var next := Shift(cell, offsets[k]);
        StepsSnoc(cells, cell, offsets, k, enemy, ignored);
        if InBounds(next) && ignored != Some(next) && Passable(cells, next, enemy) {
          yielded := yielded + [next];
        }
      }
      assert offsets[..|offsets|] == offsets;
    }

    /** `processForPawnPatterns`; a read outside the matrix ends the walk with `OffBoardRead`. */
    method WalkPawn(cell: Pos, enemy: Color) returns (w: Walk)
      requires WellFormed(chessboard.cells) && InBounds(cell)
      ensures w == PawnWalk(chessboard.cells, cell, enemy)
    {
      var figure := At(chessboard.cells, cell).figure;
      if !(figure.Some? && figure.value.figureName == Pawn) {
        return Walk([], None);
      }
      var pushes := CollectPushes(cell, enemy, figure.value.moved);
      if pushes.fault.Some? {
        return pushes;
      }
      var captures := CollectCaptures(cell, enemy, figure.value.color);
      return Walk(pushes.squares + captures, None);
    }

    /** The forward checks that open `processForPawnPatterns`. */
    method CollectPushes(cell: Pos, enemy: Color, moved: bool) returns (w: Walk)
      requires WellFormed(chessboard.cells)
      ensures w == PawnPushes(chessboard.cells, cell, enemy, moved)
    {
      var cells := chessboard.cells;
      var ahead := Pos(cell.row + PawnAdvance(enemy), cell.col);
      if !(InBounds(ahead) && IsEmpty(cells, ahead)) {
        return Walk([], None);
      }
      var yielded := [ahead];
      if !moved {
        var twoAhead := Pos(cell.row + 2 * PawnAdvance(enemy), cell.col);
        if !InBounds(twoAhead) {
          return Walk(yielded, Some(OffBoardRead));
        }
        if IsEmpty(cells, twoAhead) {
          yielded := yielded + [twoAhead];
        }
      }
      return Walk(yielded, None);
    }

    /** The two capture checks that close `processForPawnPatterns`. */
    method CollectCaptures(cell: Pos, enemy: Color, color: Color) returns (yielded: seq<Pos>)
      requires WellFormed(chessboard.cells)
      ensures yielded == PawnCaptures(chessboard.cells, cell, enemy, color)
    {
      yielded := [];
      var next := Pos(cell.row + PawnAdvance(enemy), cell.col + 1);
      if InBounds(next) && HoldsColor(chessboard.cells, next, enemy) {
        yielded := yielded + [next];
      }
      next := Pos(cell.row + (if color == White then -1 else 1), cell.col - 1);
      if InBounds(next) && HoldsColor(chessboard.cells, next, enemy) {
        yielded := yielded + [next];
      }
    }

    /** `processForCellsFigurePattern`. */
    method ProcessForCellsFigurePattern(cell: Pos, enemy: Color, ignored: Option<Pos>) returns (w: Walk)
      requires WellFormed(chessboard.cells) && InBounds(cell)
      ensures w == PatternWalk(chessboard.cells, cell, enemy, ignored)
    {
      var figure := At(chessboard.cells, cell).figure;
      if figure.None? {
        return Walk([], Some(MissingFigure));
      }
      assert AllUnit(StraightDirections) && AllUnit(DiagonalDirections);
      var yielded: seq<Pos>;
      match figure.value.figureName {
        case Rook =>
          yielded := WalkLines(cell, StraightDirections, enemy, ignored);
        case Knight =>
          yielded := WalkSteps(cell, KnightOffsets, enemy, None);
        case Bishop =>
          yielded := WalkLines(cell, DiagonalDirections, enemy, ignored);
        case Queen =>
          var straight := WalkLines(cell, StraightDirections, enemy, ignored);
          var diagonal := WalkLines(cell, DiagonalDirections, enemy, ignored);
          yielded := straight + diagonal;
        case King =>
          yielded := WalkSteps(cell, KingOffsets, enemy, ignored);
        case Pawn =>
          w := WalkPawn(cell, enemy);
          return;
      }
      w := Walk(yielded, None);
    }

    /** The callback of `getReachingEnemyCells` over one traversal: it pushes each square holding an `enemy` of `kinds`. */
    method PushHolding(found: seq<Pos>, squares: seq<Pos>, enemy: Color, kinds: set<FigureName>) returns (pushed: seq<Pos>)
      requires WellFormed(chessboard.cells) && AllInBounds(squares)
      ensures pushed == found + Holding(chessboard.cells, squares, enemy, kinds)
    {
      pushed := found;
      for k := 0 to |squares|
        invariant pushed == found + Holding(chessboard.cells, squares[..k], enemy, kinds)
      {
        assert squares[..k + 1][..k] == squares[..k];
        if HoldsKind(chessboard.cells, squares[k], enemy, kinds) {
          pushed := pushed + [squares[k]];
        }
      }
      assert squares[..|squares|] == squares;
    }

    /** `getReachingEnemyCells`. */
    method GetReachingEnemyCells(cell: Pos, enemy: Color, ignored: Option<Pos>) returns (found: seq<Pos>)
      requires WellFormed(chessboard.cells) && InBounds(cell)
      ensures found == ReachingEnemyCells(chessboard.cells, cell, enemy, ignored)
    {
      ghost var g := chessboard.cells;
      ReachingEnemyCellsSplit(g, cell, enemy, ignored);
      var straight := WalkLines(cell, StraightDirections, enemy, ignored);
      found := PushHolding([], straight, enemy, {Rook, Queen});
      ghost var a := found;
      var diagonal := WalkLines(cell, DiagonalDirections, enemy, ignored);
      found := PushHolding(found, diagonal, enemy, {Bishop, Queen});
      ghost var b := found;
      var kings := WalkSteps(cell, KingOffsets, enemy, ignored);
      found := PushHolding(found, kings, enemy, {King});
      ghost var c := found;
      var knights := WalkSteps(cell, KnightOffsets, enemy, None);
      found := PushHolding(found, knights, enemy, {Knight});
      ghost var d := found;
      var pawns := PawnSquaresOnBoard(cell, enemy);
      found := PushHolding(found, pawns, enemy, AllKinds);
      assert a == Holding(g, Lines(g, cell, StraightDirections, enemy, ignored), enemy, {Rook, Queen});
      assert b == a + Holding(g, Lines(g, cell, DiagonalDirections, enemy, ignored), enemy, {Bishop, Queen});
      assert c == b + Holding(g, Steps(g, cell, KingOffsets, enemy, ignored), enemy, {King});
      assert d == c + Holding(g, Steps(g, cell, KnightOffsets, enemy, None), enemy, {Knight});
      assert found == d + Holding(g, PawnSquaresOnBoard(cell, enemy), enemy, AllKinds);
    }
  
    /** `canMoveFromCell`: a flag set by the first square that lets the figure move. */
    method CanMoveFromCell(origin: Pos) returns (canMove: bool)
      requires WellFormed(chessboard.cells) && InBounds(origin)
      ensures canMove == CanMoveFrom(chessboard.cells, origin)
    {
      var figure := At(chessboard.cells, origin).figure;
      if figure.None? {
        return false;
      }
      var enemy := Opponent(figure.value.color);
      if figure.value.figureName == King {
        var near := WalkSteps(origin, KingOffsets, enemy, None);
        canMove := FindFreeAroundKing(origin, near, enemy);
      } else {
        var walk := ProcessForCellsFigurePattern(origin, enemy, None);
        canMove := FindNonTeammate(origin, walk.squares);
      }
    }

    /** The King's callback in `canMoveFromCell`: skips teammates, stops at the first square no enemy reaches. */
    method FindFreeAroundKing(origin: Pos, near: seq<Pos>, enemy: Color) returns (canMove: bool)
      requires WellFormed(chessboard.cells) && InBounds(origin) && AllInBounds(near)
      ensures canMove == FreeAroundKing(chessboard.cells, origin, near, enemy)
    {
      var cells := chessboard.cells;
      canMove := false;
      for i := 0 to |near|
        invariant !canMove
        invariant forall j :: 0 <= j < i ==> !KingMayGo(cells, origin, near[j], enemy)
      {
        if IsTeammates(At(cells, origin), At(cells, near[i])) {
          BlockedPrefix(cells, origin, near, i, enemy);
          continue;
        }
        var reaching := GetReachingEnemyCells(near[i], enemy, Some(origin));
        if |reaching| == 0 {
          canMove := true;
          break;
        }
        BlockedPrefix(cells, origin, near, i, enemy);
      }
    }

    /** The other figures' callback in `canMoveFromCell`: stops at the first square not held by a teammate. */
    method FindNonTeammate(origin: Pos, squares: seq<Pos>) returns (canMove: bool)
      requires WellFormed(chessboard.cells) && InBounds(origin) && AllInBounds(squares)
      ensures canMove == SomeNonTeammate(chessboard.cells, origin, squares)
    {
      var cells := chessboard.cells;
      canMove := false;
      for i := 0 to |squares|
        invariant !canMove
        invariant forall j :: 0 <= j < i ==> IsTeammates(At(cells, origin), At(cells, squares[j]))
      {
        if !IsTeammates(At(cells, origin), At(cells, squares[i])) {
          canMove := true;
          break;
        }
      }
    }

    /** `findKingCell`: the nested row-major scan; `None` stands for its error. */
    method FindKingCell(color: Color) returns (king: Option<Pos>)
      requires WellFormed(chessboard.cells)
      ensures king == FindKing(chessboard.cells, color)
    {
      var cells := chessboard.cells;
      for i := 0 to Size
        invariant forall q :: InBounds(q) && q.row < i ==> !IsKingOf(cells, q, color)
      {
        for j := 0 to Size
          invariant forall q :: InBounds(q) && Before(q, Pos(i, j)) ==> !IsKingOf(cells, q, color)
        {
          if IsKingOf(cells, Pos(i, j), color) {
            FirstKingFound(cells, color, Pos(i, j));
            return Some(Pos(i, j));
          }
        }
      }
      return None;
    }

    /** `setOnMoveAction`: writes the status and the action of `to`, or reports the error it throws. */
    method SetOnMoveAction(from: Pos, to: Pos) returns (fault: Option<Fault>)
      requires WellFormed(chessboard.cells) && InBounds(from) && InBounds(to)
      modifies chessboard
      ensures var r := InstallMove(old(chessboard.cells), from, to);
        && (r.Err? ==> fault == Some(r.fault) && chessboard.cells == old(chessboard.cells))
        && (r.Ok? ==> fault == None && chessboard.cells == r.value)
    {
      var cells := chessboard.cells;
      if IsTeammates(At(cells, from), At(cells, to)) {
        return Some(TeammateDestination);
      }
      var target := At(cells, to).figure;
      if target.Some? && target.value.figureName == King {
        return Some(KingDestination);
      }
      var status := if target.Some? then Target else OnWay;
      chessboard.cells := SetStatus(cells, to, status, MoveAction(from, to));
      return None;
    }

    /** The move installed by `setOnMoveAction`, run between its hooks. */
    method RunMoveAction(from: Pos, to: Pos)
      requires WellFormed(chessboard.cells) && InBounds(from) && InBounds(to)
      modifies chessboard
      ensures chessboard.cells == Relocate(old(chessboard.cells), from, to)
    {
      chessboard.cells := SetFigure(chessboard.cells, to, At(chessboard.cells, from).figure);
      chessboard.cells := SetFigure(chessboard.cells, from, None);
      var landed := At(chessboard.cells, to).figure;
      if landed.Some? && landed.value.figureName == Pawn {
        chessboard.cells := SetFigure(chessboard.cells, to, Some(landed.value.(moved := true)));
      }
    }
  }
}
