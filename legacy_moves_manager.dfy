/**
 * The move generator of the older revision (src/services/ChessMovesManager.ts).
 *
 * Its traversals (`process*Steps`) yield squares as the current ones do, with
 * two differences: the ray walks hand the ignored cell to the callback when it
 * is empty or of the enemy colour and only pass through it, and none of the
 * step traversals takes an ignored cell. The attack test
 * `doEnemyReachesSpecialCell` answers a boolean, and King moves are vetted inside
 * `setOnMoveAction` itself.
 */
module LegacyMovesManager {
  import opened ChessModel
  import opened MovesManager

  /**
   * One ray of `processVerticalAndHorizontalSteps` or `processDiagonalSteps`,
   * starting next to `p`: a square is yielded when it is empty or holds an `enemy`
   * figure, the ignored cell included; the walk goes on past an empty square and
   * past the ignored cell, and ends at any other occupied square.
   */
  function LegacyRay(g: Grid, p: Pos, d: Offset, enemy: Color, ignored: Option<Pos>): (r: seq<Pos>)
    requires WellFormed(g) && InBounds(p) && IsUnit(d)
    ensures forall q | q in r :: InBounds(q) && Passable(g, q, enemy)
    decreases Remaining(p, d)
  {
    var next := Shift(p, d);
    if !InBounds(next) then []
    else
      var here := if Passable(g, next, enemy) then [next] else [];
      if IsEmpty(g, next) || ignored == Some(next) then here + LegacyRay(g, next, d, enemy, ignored)
      else here
  }

  /** The rays of `dirs` one after the other. */
  function LegacyLines(g: Grid, p: Pos, dirs: seq<Offset>, enemy: Color, ignored: Option<Pos>): (r: seq<Pos>)
    requires WellFormed(g) && InBounds(p) && AllUnit(dirs)
    ensures forall q | q in r :: InBounds(q) && Passable(g, q, enemy)
  {
    if dirs == [] then []
    else LegacyLines(g, p, dirs[..|dirs| - 1], enemy, ignored) + LegacyRay(g, p, dirs[|dirs| - 1], enemy, ignored)
  }

  /**
   * The traversal `canMoveFromCell` runs for a figure other than the King:
   * `processRookSteps`, `processKnightSteps`, `processDiagonalSteps`,
   * `processQueenSteps` or `processPawnSteps`, none of them with an ignored cell.
   * `processKingSteps` completes the dispatch.
   */
  function LegacyPatternWalk(g: Grid, p: Pos, enemy: Color): (w: Walk)
    requires WellFormed(g) && InBounds(p) && At(g, p).figure.Some?
    ensures AllInBounds(w.squares)
    ensures forall q | q in w.squares :: Passable(g, q, enemy)
  {
    assert AllUnit(StraightDirections) && AllUnit(DiagonalDirections);
    match At(g, p).figure.value.figureName
    case Rook => Walk(LegacyLines(g, p, StraightDirections, enemy, None), None)
    case Knight => Walk(Steps(g, p, KnightOffsets, enemy, None), None)
    case Bishop => Walk(LegacyLines(g, p, DiagonalDirections, enemy, None), None)
    case Queen =>
      Walk(LegacyLines(g, p, StraightDirections, enemy, None) + LegacyLines(g, p, DiagonalDirections, enemy, None), None)
    case King => Walk(Steps(g, p, KingOffsets, enemy, None), None)
    case Pawn => PawnWalk(g, p, enemy)
  }

  /**
   * The five searches of `doEnemyReachesSpecialCell`, one after the other: the
   * `enemy` rooks and queens on the straight rays from `cell`, the bishops and
   * queens on its diagonal rays (both rays x-ray through `ignored`), the kings next
   * to it, the knights a jump away, and any `enemy` figure on its two pawn squares.
   */
  function LegacySearches(g: Grid, cell: Pos, enemy: Color, ignored: Option<Pos>): (r: seq<Pos>)
    requires WellFormed(g) && InBounds(cell)
    ensures forall q | q in r :: InBounds(q) && HoldsColor(g, q, enemy)
  {
    assert AllUnit(StraightDirections) && AllUnit(DiagonalDirections);
    var rooks := Holding(g, LegacyLines(g, cell, StraightDirections, enemy, ignored), enemy, {Rook, Queen});
    var bishops := Holding(g, LegacyLines(g, cell, DiagonalDirections, enemy, ignored), enemy, {Bishop, Queen});
    var kings := Holding(g, Steps(g, cell, KingOffsets, enemy, None), enemy, {King});
    var knights := Holding(g, Steps(g, cell, KnightOffsets, enemy, None), enemy, {Knight});
    var pawns := Holding(g, PawnSquaresOnBoard(cell, enemy), enemy, AllKinds);
    assert forall q | q in rooks :: InBounds(q) && HoldsColor(g, q, enemy);
    assert forall q | q in bishops :: InBounds(q) && HoldsColor(g, q, enemy);
    assert forall q | q in kings :: InBounds(q) && HoldsColor(g, q, enemy);
    assert forall q | q in knights :: InBounds(q) && HoldsColor(g, q, enemy);
    assert forall q | q in pawns :: InBounds(q) && HoldsColor(g, q, enemy);
    rooks + bishops + kings + knights + pawns
  }

  /** `doEnemyReachesSpecialCell`: one of the five searches finds a figure. */
  function EnemyReaches(g: Grid, cell: Pos, enemy: Color, ignored: Option<Pos>): (r: bool)
    requires WellFormed(g) && InBounds(cell)
    ensures r ==> exists q :: InBounds(q) && HoldsColor(g, q, enemy)
  {
    var found := LegacySearches(g, cell, enemy, ignored);
    assert found != [] ==> found[0] in found;
    found != []
  }

  /** `from` holds a King, and an enemy reaches `to` once the King's square is ignored. */
  function KingVetoed(g: Grid, from: Pos, to: Pos): (r: bool)
    requires WellFormed(g) && InBounds(from) && InBounds(to)
    ensures r ==> At(g, from).figure.Some? && At(g, from).figure.value.figureName == King
    ensures r ==> exists q :: InBounds(q) && IsEnemies(At(g, from), At(g, q))
  {
    var f := At(g, from).figure;
    f.Some? && f.value.figureName == King && EnemyReaches(g, to, Opponent(f.value.color), Some(from))
  }

  /**
   * The older `setOnMoveAction`: refuses a teammate's cell; leaves the board as it
   * is when a King would go to a square an enemy reaches; otherwise marks `to`
   * Target when occupied, OnWay when empty, and installs the move as its action.
   * It has no check against a destination holding a King.
   */
  function LegacyInstallMove(g: Grid, from: Pos, to: Pos): (r: Result<Grid>)
    requires WellFormed(g) && InBounds(from) && InBounds(to)
    ensures r.Err? <==> IsTeammates(At(g, from), At(g, to))
    ensures r.Err? ==> r.fault == TeammateDestination
    ensures r.Ok? ==> WellFormed(r.value) && SameFigures(r.value, g)
    ensures r.Ok? && KingVetoed(g, from, to) ==> r.value == g
    ensures r.Ok? && !KingVetoed(g, from, to) ==>
      && At(r.value, to).action == MoveAction(from, to)
      && (At(r.value, to).status == Target <==> !IsEmpty(g, to))
      && (At(r.value, to).status == OnWay <==> IsEmpty(g, to))
    ensures r.Ok? ==> forall q :: InBounds(q) && q != to ==> At(r.value, q) == At(g, q)
  {
    if IsTeammates(At(g, from), At(g, to)) then Err(TeammateDestination)
    else if KingVetoed(g, from, to) then Ok(g)
    else Ok(SetStatus(g, to, if At(g, to).figure.Some? then Target else OnWay, MoveAction(from, to)))
  }

  /** The King at `p` may go to `q`: not a teammate's square, and no enemy reaches it once `p` is ignored. */
  predicate LegacyKingMayGo(g: Grid, p: Pos, q: Pos, enemy: Color)
    requires WellFormed(g) && InBounds(p) && InBounds(q)
  {
    !IsTeammates(At(g, p), At(g, q)) && !EnemyReaches(g, q, enemy, Some(p))
  }

  /** Some square of `near` is one where the King at `p` may go. */
  predicate LegacyFreeAroundKing(g: Grid, p: Pos, near: seq<Pos>, enemy: Color)
    requires WellFormed(g) && InBounds(p) && AllInBounds(near)
  {
    exists i :: 0 <= i < |near| && LegacyKingMayGo(g, p, near[i], enemy)
  }

  /**
   * The older `canMoveFromCell`: false for an empty cell; a King can move when one
   * of its steps is a square it may go to; any other figure when its traversal
   * yields a square not held by a teammate.
   */
  function LegacyCanMoveFrom(g: Grid, p: Pos): (r: bool)
    requires WellFormed(g) && InBounds(p)
    ensures r ==> At(g, p).figure.Some?
    ensures r ==> exists q :: InBounds(q) && !IsTeammates(At(g, p), At(g, q))
  {
    match At(g, p).figure
    case None => false
    case Some(f) =>
      var enemy := Opponent(f.color);
      if f.figureName == King then LegacyFreeAroundKing(g, p, Steps(g, p, KingOffsets, enemy, None), enemy)
      else SomeNonTeammate(g, p, LegacyPatternWalk(g, p, enemy).squares)
  }

  // ---------------------------------------------------------------------------
  // The older ray walk
  // ---------------------------------------------------------------------------

  /** One step of the older ray: the square next to `p`, when passable, then the rest of the ray when it goes on. */
  lemma LegacyRayStep(g: Grid, p: Pos, d: Offset, enemy: Color, ignored: Option<Pos>)
    requires WellFormed(g) && InBounds(p) && IsUnit(d) && InBounds(Shift(p, d))
    ensures var next := Shift(p, d);
      LegacyRay(g, p, d, enemy, ignored) ==
        (if Passable(g, next, enemy) then [next] else [])
        + (if IsEmpty(g, next) || ignored == Some(next) then LegacyRay(g, next, d, enemy, ignored) else [])
  {
  }

  /** With no ignored cell, the older ray is the current one. */
  lemma {:induction false} LegacyRayNone(g: Grid, p: Pos, d: Offset, enemy: Color)
    requires WellFormed(g) && InBounds(p) && IsUnit(d)
    ensures LegacyRay(g, p, d, enemy, None) == Ray(g, p, d, enemy, None)
    decreases Remaining(p, d)
  {
    var next := Shift(p, d);
    if InBounds(next) && IsEmpty(g, next) {
      LegacyRayNone(g, next, d, enemy);
    }
  }

  /** With no ignored cell, the older rays are the current ones. */
  lemma {:induction false} LegacyLinesNone(g: Grid, p: Pos, dirs: seq<Offset>, enemy: Color)
    requires WellFormed(g) && InBounds(p) && AllUnit(dirs)
    ensures LegacyLines(g, p, dirs, enemy, None) == Lines(g, p, dirs, enemy, None)
    decreases |dirs|
  {
    if dirs != [] {
      LegacyLinesNone(g, p, dirs[..|dirs| - 1], enemy);
      LegacyRayNone(g, p, dirs[|dirs| - 1], enemy);
    }
  }

  /** A passable square past a clear stretch is yielded, whether or not it is the ignored cell. */
  lemma {:induction false} LegacyRayContains(g: Grid, p: Pos, d: Offset, enemy: Color, ignored: Option<Pos>, n: int)
    requires WellFormed(g) && InBounds(p) && IsUnit(d) && n >= 1
    requires InBounds(Along(p, d, n)) && Passable(g, Along(p, d, n), enemy)
    requires ClearUpTo(g, p, d, n, ignored)
    ensures Along(p, d, n) in LegacyRay(g, p, d, enemy, ignored)
    decreases n
  {
    var next := Shift(p, d);
    AlongShift(p, d, n - 1);
    if n > 1 {
      ClearUpToTail(g, p, d, n - 1, ignored);
      LegacyRayContains(g, next, d, enemy, ignored, n - 1);
    }
  }

  /** Every square the older ray yields lies `n` steps along it, past a clear stretch. */
  lemma {:induction false} LegacyRayMember(g: Grid, p: Pos, d: Offset, enemy: Color, ignored: Option<Pos>, q: Pos) returns (n: int)
    requires WellFormed(g) && InBounds(p) && IsUnit(d)
    requires q in LegacyRay(g, p, d, enemy, ignored)
    ensures n >= 1 && q == Along(p, d, n) && ClearUpTo(g, p, d, n, ignored)
    decreases Remaining(p, d)
  {
    var next := Shift(p, d);
    AlongShift(p, d, 0);
    if q == next {
      n := 1;
    } else {
      assert IsEmpty(g, next) || ignored == Some(next);
      assert q in LegacyRay(g, next, d, enemy, ignored);
      var m := LegacyRayMember(g, next, d, enemy, ignored, q);
      ClearUpToCons(g, p, d, m, ignored);
      AlongShift(p, d, m);
      n := m + 1;
    }
  }

  /** The older ray stops at the first occupied square other than the ignored cell. */
  lemma {:induction false} LegacyRayStops(g: Grid, p: Pos, d: Offset, enemy: Color, ignored: Option<Pos>)
    requires WellFormed(g) && InBounds(p) && IsUnit(d)
    ensures forall i :: 0 <= i < |LegacyRay(g, p, d, enemy, ignored)| - 1 ==>
      var q := LegacyRay(g, p, d, enemy, ignored)[i]; IsEmpty(g, q) || ignored == Some(q)
    decreases Remaining(p, d)
  {
    var next := Shift(p, d);
    if InBounds(next) && (IsEmpty(g, next) || ignored == Some(next)) {
      LegacyRayStops(g, next, d, enemy, ignored);
      var r := LegacyRay(g, p, d, enemy, ignored);
      var rest := LegacyRay(g, next, d, enemy, ignored);
      var here := if Passable(g, next, enemy) then [next] else [];
      assert r == here + rest;
      forall i | 0 <= i < |r| - 1
        ensures IsEmpty(g, r[i]) || ignored == Some(r[i])
      {
        if i >= |here| {
          var k := i - |here|;
          assert r[i] == rest[k];
          assert 0 <= k < |rest| - 1;
          assert IsEmpty(g, rest[k]) || ignored == Some(rest[k]);
        } else {
          assert r[i] == next;
        }
      }
    }
  }

  /** The concatenated rays of `dirs` are those of all but the last direction, then the last ray. */
  lemma LegacyLinesMemberSnoc(g: Grid, p: Pos, dirs: seq<Offset>, enemy: Color, ignored: Option<Pos>)
    requires WellFormed(g) && InBounds(p) && AllUnit(dirs) && dirs != []
    ensures AllUnit(dirs[..|dirs| - 1])
    ensures LegacyLines(g, p, dirs, enemy, ignored) == LegacyLines(g, p, dirs[..|dirs| - 1], enemy, ignored) + LegacyRay(g, p, dirs[|dirs| - 1], enemy, ignored)
  {
    AllUnitPrefix(dirs);
  }

  /** The index of a ray of `dirs` that yields a square on the concatenated rays. */
  lemma {:induction false} LegacyLinesMemberWitness(g: Grid, p: Pos, dirs: seq<Offset>, enemy: Color, ignored: Option<Pos>, q: Pos) returns (i: int)
    requires WellFormed(g) && InBounds(p) && AllUnit(dirs)
    requires q in LegacyLines(g, p, dirs, enemy, ignored)
    ensures 0 <= i < |dirs| && q in LegacyRay(g, p, dirs[i], enemy, ignored)
    decreases |dirs|
  {
    var init := dirs[..|dirs| - 1];
    LegacyLinesMemberSnoc(g, p, dirs, enemy, ignored);
    if q in LegacyLines(g, p, init, enemy, ignored) {
      i := LegacyLinesMemberWitness(g, p, init, enemy, ignored, q);
      assert init[i] == dirs[i];
    } else {
      i := |dirs| - 1;
    }
  }

  /** Every square the `i`-th ray yields is on the concatenated rays. */
  lemma {:induction false} LegacyLinesMemberCovers(g: Grid, p: Pos, dirs: seq<Offset>, enemy: Color, ignored: Option<Pos>, q: Pos, i: int)
    requires WellFormed(g) && InBounds(p) && AllUnit(dirs)
    requires 0 <= i < |dirs| && q in LegacyRay(g, p, dirs[i], enemy, ignored)
    ensures q in LegacyLines(g, p, dirs, enemy, ignored)
    decreases |dirs|
  {
    var init := dirs[..|dirs| - 1];
    LegacyLinesMemberSnoc(g, p, dirs, enemy, ignored);
    if i < |init| {
      assert init[i] == dirs[i];
      LegacyLinesMemberCovers(g, p, init, enemy, ignored, q, i);
    }
  }

  /** A square is on the concatenated older rays exactly when one of them yields it. */
  lemma LegacyLinesMember(g: Grid, p: Pos, dirs: seq<Offset>, enemy: Color, ignored: Option<Pos>, q: Pos)
    requires WellFormed(g) && InBounds(p) && AllUnit(dirs)
    ensures q in LegacyLines(g, p, dirs, enemy, ignored) <==> exists i :: 0 <= i < |dirs| && q in LegacyRay(g, p, dirs[i], enemy, ignored)
  {
    if q in LegacyLines(g, p, dirs, enemy, ignored) {
      var i := LegacyLinesMemberWitness(g, p, dirs, enemy, ignored, q);
    }
    if i :| 0 <= i < |dirs| && q in LegacyRay(g, p, dirs[i], enemy, ignored) {
      LegacyLinesMemberCovers(g, p, dirs, enemy, ignored, q, i);
    }
  }

  /**
   * The older rays yield exactly the passable squares seen along a direction, the
   * ignored cell counting as clear and being yielded itself when passable.
   */
  lemma LegacyLinesIff(g: Grid, p: Pos, dirs: seq<Offset>, enemy: Color, ignored: Option<Pos>, q: Pos)
    requires WellFormed(g) && InBounds(p) && AllUnit(dirs)
    ensures q in LegacyLines(g, p, dirs, enemy, ignored) <==>
      InBounds(q) && Passable(g, q, enemy) && SeesAlong(g, p, q, dirs, ignored)
  {
    LegacyLinesMember(g, p, dirs, enemy, ignored, q);
    if q in LegacyLines(g, p, dirs, enemy, ignored) {
      var i :| 0 <= i < |dirs| && q in LegacyRay(g, p, dirs[i], enemy, ignored);
      var n := LegacyRayMember(g, p, dirs[i], enemy, ignored, q);
    }
    if InBounds(q) && Passable(g, q, enemy) && SeesAlong(g, p, q, dirs, ignored) {
      var i, n :| 0 <= i < |dirs| && n >= 1 && q == Along(p, dirs[i], n) && ClearUpTo(g, p, dirs[i], n, ignored);
      LegacyRayContains(g, p, dirs[i], enemy, ignored, n);
    }
  }

  // ---------------------------------------------------------------------------
  // The attack test
  // ---------------------------------------------------------------------------

  /** `doEnemyReachesSpecialCell` is true exactly when one of its five searches finds a figure. */
  lemma EnemyReachesSplit(g: Grid, cell: Pos, enemy: Color, ignored: Option<Pos>)
    requires WellFormed(g) && InBounds(cell)
    ensures AllUnit(StraightDirections) && AllUnit(DiagonalDirections)
    ensures AllInBounds(LegacyLines(g, cell, StraightDirections, enemy, ignored))
    ensures AllInBounds(LegacyLines(g, cell, DiagonalDirections, enemy, ignored))
    ensures AllInBounds(Steps(g, cell, KingOffsets, enemy, None)) && AllInBounds(Steps(g, cell, KnightOffsets, enemy, None))
    ensures EnemyReaches(g, cell, enemy, ignored) <==>
      || Holding(g, LegacyLines(g, cell, StraightDirections, enemy, ignored), enemy, {Rook, Queen}) != []
      || Holding(g, LegacyLines(g, cell, DiagonalDirections, enemy, ignored), enemy, {Bishop, Queen}) != []
      || Holding(g, Steps(g, cell, KingOffsets, enemy, None), enemy, {King}) != []
      || Holding(g, Steps(g, cell, KnightOffsets, enemy, None), enemy, {Knight}) != []
      || Holding(g, PawnSquaresOnBoard(cell, enemy), enemy, AllKinds) != []
  {
    assert AllUnit(StraightDirections) && AllUnit(DiagonalDirections);
    var rooks := Holding(g, LegacyLines(g, cell, StraightDirections, enemy, ignored), enemy, {Rook, Queen});
    var bishops := Holding(g, LegacyLines(g, cell, DiagonalDirections, enemy, ignored), enemy, {Bishop, Queen});
    var kings := Holding(g, Steps(g, cell, KingOffsets, enemy, None), enemy, {King});
    var knights := Holding(g, Steps(g, cell, KnightOffsets, enemy, None), enemy, {Knight});
    var pawns := Holding(g, PawnSquaresOnBoard(cell, enemy), enemy, AllKinds);
    assert LegacySearches(g, cell, enemy, ignored) == rooks + bishops + kings + knights + pawns;
    assert |rooks + bishops + kings + knights + pawns| == |rooks| + |bishops| + |kings| + |knights| + |pawns|;
  }

  /** The figure at `q` is a rook or queen that sees `p` along a straight line, the ignored cell counting as clear. */
  ghost predicate LegacyReachesStraight(g: Grid, q: Pos, p: Pos, ignored: Option<Pos>)
    requires WellFormed(g) && InBounds(q) && At(g, q).figure.Some?
  {
    var kind := At(g, q).figure.value.figureName;
    (kind == Rook || kind == Queen) && SeesAlong(g, p, q, StraightDirections, ignored)
  }

  /** The figure at `q` is a bishop or queen that sees `p` along a diagonal, the ignored cell counting as clear. */
  ghost predicate LegacyReachesDiagonal(g: Grid, q: Pos, p: Pos, ignored: Option<Pos>)
    requires WellFormed(g) && InBounds(q) && At(g, q).figure.Some?
  {
    var kind := At(g, q).figure.value.figureName;
    (kind == Bishop || kind == Queen) && SeesAlong(g, p, q, DiagonalDirections, ignored)
  }

  /**
   * The attack relation of `doEnemyReachesSpecialCell`: the figure at `q` reaches
   * `p` when it is a rook or queen on a clear straight line or a bishop or queen on
   * a clear diagonal (the ignored cell counting as clear, and reaching itself when
   * it holds such a figure), a king next to `p`, a knight a jump away, or any
   * figure on one of the pawn squares of `p`.
   */
  ghost predicate LegacyReaches(g: Grid, q: Pos, p: Pos, enemy: Color, ignored: Option<Pos>)
    requires WellFormed(g) && InBounds(q) && HoldsColor(g, q, enemy)
  {
    var kind := At(g, q).figure.value.figureName;
    || LegacyReachesStraight(g, q, p, ignored)
    || LegacyReachesDiagonal(g, q, p, ignored)
    || (kind == King && Adjacent(p, q))
    || (kind == Knight && KnightJump(p, q))
    || q in PawnAttackSquares(p, enemy)
  }

  lemma LegacyStraightPart(g: Grid, cell: Pos, enemy: Color, ignored: Option<Pos>, q: Pos)
    requires WellFormed(g) && InBounds(cell) && InBounds(q) && HoldsColor(g, q, enemy)
    ensures AllUnit(StraightDirections)
    ensures q in Holding(g, LegacyLines(g, cell, StraightDirections, enemy, ignored), enemy, {Rook, Queen}) <==>
      LegacyReachesStraight(g, q, cell, ignored)
  {
    assert AllUnit(StraightDirections);
    LegacyLinesIff(g, cell, StraightDirections, enemy, ignored, q);
    HoldingIff(g, LegacyLines(g, cell, StraightDirections, enemy, ignored), enemy, {Rook, Queen}, q);
  }

  lemma LegacyDiagonalPart(g: Grid, cell: Pos, enemy: Color, ignored: Option<Pos>, q: Pos)
    requires WellFormed(g) && InBounds(cell) && InBounds(q) && HoldsColor(g, q, enemy)
    ensures AllUnit(DiagonalDirections)
    ensures q in Holding(g, LegacyLines(g, cell, DiagonalDirections, enemy, ignored), enemy, {Bishop, Queen}) <==>
      LegacyReachesDiagonal(g, q, cell, ignored)
  {
    assert AllUnit(DiagonalDirections);
    LegacyLinesIff(g, cell, DiagonalDirections, enemy, ignored, q);
    HoldingIff(g, LegacyLines(g, cell, DiagonalDirections, enemy, ignored), enemy, {Bishop, Queen}, q);
  }

  lemma LegacySearchesParts(g: Grid, cell: Pos, enemy: Color, ignored: Option<Pos>, q: Pos)
    requires WellFormed(g) && InBounds(cell)
    ensures AllUnit(StraightDirections) && AllUnit(DiagonalDirections)
    ensures q in LegacySearches(g, cell, enemy, ignored) <==>
      || q in Holding(g, LegacyLines(g, cell, StraightDirections, enemy, ignored), enemy, {Rook, Queen})
      || q in Holding(g, LegacyLines(g, cell, DiagonalDirections, enemy, ignored), enemy, {Bishop, Queen})
      || q in Holding(g, Steps(g, cell, KingOffsets, enemy, None), enemy, {King})
      || q in Holding(g, Steps(g, cell, KnightOffsets, enemy, None), enemy, {Knight})
      || q in Holding(g, PawnSquaresOnBoard(cell, enemy), enemy, AllKinds)
  {
    assert AllUnit(StraightDirections) && AllUnit(DiagonalDirections);
  }

  /** The searches of `doEnemyReachesSpecialCell` find exactly the `enemy` figures that reach `cell`. */
  lemma LegacySearchesIff(g: Grid, cell: Pos, enemy: Color, ignored: Option<Pos>, q: Pos)
    requires WellFormed(g) && InBounds(cell)
    ensures q in LegacySearches(g, cell, enemy, ignored) <==>
      InBounds(q) && HoldsColor(g, q, enemy) && LegacyReaches(g, q, cell, enemy, ignored)
  {
    LegacySearchesParts(g, cell, enemy, ignored, q);
    if InBounds(q) && HoldsColor(g, q, enemy) {
      LegacyStraightPart(g, cell, enemy, ignored, q);
      LegacyDiagonalPart(g, cell, enemy, ignored, q);
      KingPart(g, cell, enemy, None, q);
      KnightPart(g, cell, enemy, q);
      HoldingIff(g, PawnSquaresOnBoard(cell, enemy), enemy, AllKinds, q);
    }
  }

  /** `doEnemyReachesSpecialCell` answers whether some `enemy` figure reaches `cell`. */
  lemma EnemyReachesIff(g: Grid, cell: Pos, enemy: Color, ignored: Option<Pos>)
    requires WellFormed(g) && InBounds(cell)
    ensures EnemyReaches(g, cell, enemy, ignored) <==>
      exists q :: InBounds(q) && HoldsColor(g, q, enemy) && LegacyReaches(g, q, cell, enemy, ignored)
  {
    var r := LegacySearches(g, cell, enemy, ignored);
    if r != [] {
      var q := r[0];
      assert q in r;
      LegacySearchesIff(g, cell, enemy, ignored, q);
    }
    if q :| InBounds(q) && HoldsColor(g, q, enemy) && LegacyReaches(g, q, cell, enemy, ignored) {
      LegacySearchesIff(g, cell, enemy, ignored, q);
    }
  }

  /**
   * On an `enemy` figure other than the ignored cell, the searches of
   * `doEnemyReachesSpecialCell` and of the current `getReachingEnemyCells` agree.
   */
  lemma SearchesAgreeAt(g: Grid, cell: Pos, enemy: Color, ignored: Option<Pos>, q: Pos)
    requires WellFormed(g) && InBounds(cell) && ignored != Some(q)
    ensures q in LegacySearches(g, cell, enemy, ignored) <==> q in ReachingEnemyCells(g, cell, enemy, ignored)
  {
    LegacySearchesParts(g, cell, enemy, ignored, q);
    ReachingEnemyCellsParts(g, cell, enemy, ignored, q);
    if InBounds(q) && HoldsColor(g, q, enemy) {
      LegacyStraightPart(g, cell, enemy, ignored, q);
      StraightPart(g, cell, enemy, ignored, q);
      LegacyDiagonalPart(g, cell, enemy, ignored, q);
      DiagonalPart(g, cell, enemy, ignored, q);
      KingPart(g, cell, enemy, None, q);
      KingPart(g, cell, enemy, ignored, q);
    }
  }

  /**
   * When the ignored cell holds no `enemy` figure (as for a King vetting its own
   * steps), `doEnemyReachesSpecialCell` answers true exactly when the current
   * `getReachingEnemyCells` finds some figure.
   */
  lemma EnemyReachesAgrees(g: Grid, cell: Pos, enemy: Color, ignored: Option<Pos>)
    requires WellFormed(g) && InBounds(cell)
    requires ignored.Some? ==> !(InBounds(ignored.value) && HoldsColor(g, ignored.value, enemy))
    ensures EnemyReaches(g, cell, enemy, ignored) <==> ReachingEnemyCells(g, cell, enemy, ignored) != []
  {
    var legacy := LegacySearches(g, cell, enemy, ignored);
    var current := ReachingEnemyCells(g, cell, enemy, ignored);
    if legacy != [] {
      assert legacy[0] in legacy;
      SearchesAgreeAt(g, cell, enemy, ignored, legacy[0]);
    }
    if current != [] {
      assert current[0] in current;
      SearchesAgreeAt(g, cell, enemy, ignored, current[0]);
    }
  }

  // ---------------------------------------------------------------------------
  // Installing a move and asking whether a figure can move
  // ---------------------------------------------------------------------------

  /**
   * The older `setOnMoveAction` against the current revision's: the same result
   * for a destination without a King, except that a King origin whose destination
   * is reached by an enemy (the current revision filters that square out in
   * `selectCell`) leaves the board unchanged.
   */
  lemma LegacyInstallMoveAgrees(g: Grid, from: Pos, to: Pos)
    requires WellFormed(g) && InBounds(from) && InBounds(to)
    requires !HoldsKind(g, to, White, {King}) && !HoldsKind(g, to, Black, {King})
    ensures var f := At(g, from).figure;
      LegacyInstallMove(g, from, to) ==
        if IsTeammates(At(g, from), At(g, to)) then Err(TeammateDestination)
        else if f.Some? && f.value.figureName == King && ReachingEnemyCells(g, to, Opponent(f.value.color), Some(from)) != []
        then Ok(g)
        else InstallMove(g, from, to)
  {
    var f := At(g, from).figure;
    if f.Some? && f.value.figureName == King {
      EnemyReachesAgrees(g, to, Opponent(f.value.color), Some(from));
    }
  }

  /** The older traversals of a figure other than the King are the current ones without an ignored cell. */
  lemma LegacyPatternWalkAgrees(g: Grid, p: Pos, enemy: Color)
    requires WellFormed(g) && InBounds(p) && At(g, p).figure.Some?
    ensures LegacyPatternWalk(g, p, enemy) == PatternWalk(g, p, enemy, None)
  {
    assert AllUnit(StraightDirections) && AllUnit(DiagonalDirections);
    LegacyLinesNone(g, p, StraightDirections, enemy);
    LegacyLinesNone(g, p, DiagonalDirections, enemy);
  }

  /** The older and the current test of one King step agree. */
  lemma LegacyKingMayGoAgrees(g: Grid, p: Pos, q: Pos, enemy: Color)
    requires WellFormed(g) && InBounds(p) && InBounds(q) && !HoldsColor(g, p, enemy)
    ensures LegacyKingMayGo(g, p, q, enemy) == KingMayGo(g, p, q, enemy)
  {
    EnemyReachesAgrees(g, q, enemy, Some(p));
  }

  /** The King's callbacks of the older and the current `canMoveFromCell` agree. */
  lemma LegacyFreeAroundKingAgrees(g: Grid, p: Pos, near: seq<Pos>, enemy: Color)
    requires WellFormed(g) && InBounds(p) && AllInBounds(near) && !HoldsColor(g, p, enemy)
    ensures LegacyFreeAroundKing(g, p, near, enemy) == FreeAroundKing(g, p, near, enemy)
  {
    forall i | 0 <= i < |near|
      ensures LegacyKingMayGo(g, p, near[i], enemy) == KingMayGo(g, p, near[i], enemy)
    {
      LegacyKingMayGoAgrees(g, p, near[i], enemy);
    }
  }

  /** The older and the current `canMoveFromCell` agree on every board and every cell. */
  lemma LegacyCanMoveFromAgrees(g: Grid, p: Pos)
    requires WellFormed(g) && InBounds(p)
    ensures LegacyCanMoveFrom(g, p) == CanMoveFrom(g, p)
  {
    var f := At(g, p).figure;
    if f.Some? {
      var enemy := Opponent(f.value.color);
      if f.value.figureName == King {
        LegacyFreeAroundKingAgrees(g, p, Steps(g, p, KingOffsets, enemy, None), enemy);
      } else {
        LegacyPatternWalkAgrees(g, p, enemy);
      }
    }
  }

  /** A square next to the King at `p`, empty or of the other colour, that no enemy reaches with `p` ignored. */
  predicate LegacySafeKingStep(g: Grid, p: Pos, q: Pos, enemy: Color)
    requires WellFormed(g)
  {
    InBounds(q) && Adjacent(p, q) && Passable(g, q, enemy) && !EnemyReaches(g, q, enemy, Some(p))
  }

  lemma LegacyKingMoveHasSafeStep(g: Grid, p: Pos)
    requires WellFormed(g) && InBounds(p) && At(g, p).figure.Some? && At(g, p).figure.value.figureName == King
    requires LegacyCanMoveFrom(g, p)
    ensures exists q :: LegacySafeKingStep(g, p, q, Opponent(At(g, p).figure.value.color))
  {
    var enemy := Opponent(At(g, p).figure.value.color);
    var near := Steps(g, p, KingOffsets, enemy, None);
    var i :| 0 <= i < |near| && LegacyKingMayGo(g, p, near[i], enemy);
    KingStepsIff(g, p, enemy, None, near[i]);
    assert LegacySafeKingStep(g, p, near[i], enemy);
  }

  lemma LegacySafeStepLetsKingMove(g: Grid, p: Pos, q: Pos)
    requires WellFormed(g) && InBounds(p) && At(g, p).figure.Some? && At(g, p).figure.value.figureName == King
    requires LegacySafeKingStep(g, p, q, Opponent(At(g, p).figure.value.color))
    ensures LegacyCanMoveFrom(g, p)
  {
    var enemy := Opponent(At(g, p).figure.value.color);
    var near := Steps(g, p, KingOffsets, enemy, None);
    KingStepsIff(g, p, enemy, None, q);
    var i :| 0 <= i < |near| && near[i] == q;
    assert LegacyKingMayGo(g, p, near[i], enemy);
  }

  /**
   * A King can move exactly when some square next to it, empty or of the other
   * colour, is reached by no enemy per `doEnemyReachesSpecialCell` with the King's
   * own square ignored.
   */
  lemma LegacyKingMoveIff(g: Grid, p: Pos)
    requires WellFormed(g) && InBounds(p) && At(g, p).figure.Some? && At(g, p).figure.value.figureName == King
    ensures LegacyCanMoveFrom(g, p) <==> exists q :: LegacySafeKingStep(g, p, q, Opponent(At(g, p).figure.value.color))
  {
    if LegacyCanMoveFrom(g, p) {
      LegacyKingMoveHasSafeStep(g, p);
    }
    if q :| LegacySafeKingStep(g, p, q, Opponent(At(g, p).figure.value.color)) {
      LegacySafeStepLetsKingMove(g, p, q);
    }
  }

  // ---------------------------------------------------------------------------
  // The queries read figures only
  // ---------------------------------------------------------------------------

  lemma {:induction false} LegacyRaySameFigures(g: Grid, h: Grid, p: Pos, d: Offset, enemy: Color, ignored: Option<Pos>)
    requires WellFormed(g) && WellFormed(h) && SameFigures(g, h) && InBounds(p) && IsUnit(d)
    ensures LegacyRay(g, p, d, enemy, ignored) == LegacyRay(h, p, d, enemy, ignored)
    decreases Remaining(p, d)
  {
    var next := Shift(p, d);
    if InBounds(next) {
      assert At(g, next).figure == At(h, next).figure;
      LegacyRaySameFigures(g, h, next, d, enemy, ignored);
    }
  }

  lemma {:induction false} LegacyLinesSameFigures(g: Grid, h: Grid, p: Pos, dirs: seq<Offset>, enemy: Color, ignored: Option<Pos>)
    requires WellFormed(g) && WellFormed(h) && SameFigures(g, h) && InBounds(p) && AllUnit(dirs)
    ensures LegacyLines(g, p, dirs, enemy, ignored) == LegacyLines(h, p, dirs, enemy, ignored)
    decreases |dirs|
  {
    if dirs != [] {
      LegacyLinesSameFigures(g, h, p, dirs[..|dirs| - 1], enemy, ignored);
      LegacyRaySameFigures(g, h, p, dirs[|dirs| - 1], enemy, ignored);
    }
  }

  /** `doEnemyReachesSpecialCell` reads the figures of the board only. */
  lemma EnemyReachesSameFigures(g: Grid, h: Grid, cell: Pos, enemy: Color, ignored: Option<Pos>)
    requires WellFormed(g) && WellFormed(h) && SameFigures(g, h) && InBounds(cell)
    ensures EnemyReaches(g, cell, enemy, ignored) == EnemyReaches(h, cell, enemy, ignored)
  {
    assert AllUnit(StraightDirections) && AllUnit(DiagonalDirections);
    LegacyLinesSameFigures(g, h, cell, StraightDirections, enemy, ignored);
    LegacyLinesSameFigures(g, h, cell, DiagonalDirections, enemy, ignored);
    StepsSameFigures(g, h, cell, KingOffsets, enemy, None);
    StepsSameFigures(g, h, cell, KnightOffsets, enemy, None);
    HoldingSameFigures(g, h, LegacyLines(g, cell, StraightDirections, enemy, ignored), enemy, {Rook, Queen});
    HoldingSameFigures(g, h, LegacyLines(g, cell, DiagonalDirections, enemy, ignored), enemy, {Bishop, Queen});
    HoldingSameFigures(g, h, Steps(g, cell, KingOffsets, enemy, None), enemy, {King});
    HoldingSameFigures(g, h, Steps(g, cell, KnightOffsets, enemy, None), enemy, {Knight});
    HoldingSameFigures(g, h, PawnSquaresOnBoard(cell, enemy), enemy, AllKinds);
  }

  // ---------------------------------------------------------------------------
  // The class
  // ---------------------------------------------------------------------------

  /** The older move generator object; it reads and writes the cells of its board. */
  class ChessMovesManager {
    var chessboard: Chessboard

    constructor (chessboard: Chessboard)
      ensures this.chessboard == chessboard
    {
      this.chessboard := chessboard;
    }

    /** One ray of the `while` loops of `processVerticalAndHorizontalSteps` and `processDiagonalSteps`. */
    method ProcessRay(cell: Pos, d: Offset, enemy: Color, ignored: Option<Pos>) returns (yielded: seq<Pos>)
      requires WellFormed(chessboard.cells) && InBounds(cell) && IsUnit(d)
      ensures yielded == LegacyRay(chessboard.cells, cell, d, enemy, ignored)
    {
      var cells := chessboard.cells;
      var nextRow, nextCol := cell.row, cell.col;
      yielded := [];
      while true
        invariant InBounds(Pos(nextRow, nextCol))
        invariant yielded + LegacyRay(cells, Pos(nextRow, nextCol), d, enemy, ignored) == LegacyRay(cells, cell, d, enemy, ignored)
        decreases Remaining(Pos(nextRow, nextCol), d)
      {
        ghost var here := Pos(nextRow, nextCol);
        ghost var done := yielded;
        nextRow, nextCol := nextRow + d.dr, nextCol + d.dc;
        var next := Pos(nextRow, nextCol);
        assert next == Shift(here, d);
        if !InBounds(next) {
          assert LegacyRay(cells, here, d, enemy, ignored) == [];
          break;
        }
        ghost var step := if Passable(cells, next, enemy) then [next] else [];
        LegacyRayStep(cells, here, d, enemy, ignored);
        if IsEmpty(cells, next) || HoldsColor(cells, next, enemy) {
          yielded := yielded + [next];
        }
        assert yielded == done + step;
        if !IsEmpty(cells, next) && ignored != Some(next) {
          assert LegacyRay(cells, here, d, enemy, ignored) == step + [];
          break;
        }
        AppendAssociates(done, step, LegacyRay(cells, next, d, enemy, ignored));
      }
    }

    /** `processVerticalAndHorizontalSteps` and `processDiagonalSteps`: the rays of `dirs` in turn. */
    method ProcessLines(cell: Pos, dirs: seq<Offset>, enemy: Color, ignored: Option<Pos>) returns (yielded: seq<Pos>)
      requires WellFormed(chessboard.cells) && InBounds(cell) && AllUnit(dirs)
      ensures yielded == LegacyLines(chessboard.cells, cell, dirs, enemy, ignored)
    {
      yielded := [];
      for k := 0 to |dirs|
        invariant yielded == LegacyLines(chessboard.cells, cell, dirs[..k], enemy, ignored)
      {
        var ray := ProcessRay(cell, dirs[k], enemy, ignored);
        assert dirs[..k + 1][..k] == dirs[..k];
        yielded := yielded + ray;
      }
      assert dirs[..|dirs|] == dirs;
    }

    /** `processKnightSteps` and `processKingSteps`: one square per offset, in order, no ignored cell. */
    method ProcessOffsetSteps(cell: Pos, offsets: seq<Offset>, enemy: Color) returns (yielded: seq<Pos>)
      requires WellFormed(chessboard.cells) && InBounds(cell)
      ensures yielded == Steps(chessboard.cells, cell, offsets, enemy, None)
    {
      var cells := chessboard.cells;
      yielded := [];
      for k := 0 to |offsets|
        invariant yielded == Steps(cells, cell, offsets[..k], enemy, None)
      {
        var next := Shift(cell, offsets[k]);
        StepsSnoc(cells, cell, offsets, k, enemy, None);
        if InBounds(next) && (IsEmpty(cells, next) || HoldsColor(cells, next, enemy)) {
          yielded := yielded + [next];
        }
      }
      assert offsets[..|offsets|] == offsets;
    }

    /** `processPawnSteps`, which reads as the current pawn traversal does. */
    method ProcessPawnSteps(cell: Pos, enemy: Color) returns (w: Walk)
      requires WellFormed(chessboard.cells) && InBounds(cell)
      ensures w == PawnWalk(chessboard.cells, cell, enemy)
    {
      var figure := At(chessboard.cells, cell).figure;
      if !(figure.Some? && figure.value.figureName == Pawn) {
        return Walk([], None);
      }
      var pushes := ProcessPawnPushes(cell, enemy, figure.value.moved);
      if pushes.fault.Some? {
        return pushes;
      }
      var captures := ProcessPawnCaptures(cell, enemy, figure.value.color);
      return Walk(pushes.squares + captures, None);
    }

    /** The forward checks that open `processPawnSteps`. */
    method ProcessPawnPushes(cell: Pos, enemy: Color, moved: bool) returns (w: Walk)
      requires WellFormed(chessboard.cells)
      ensures w == PawnPushes(chessboard.cells, cell, enemy, moved)
    {
      var cells := chessboard.cells;
      var ahead := Pos(cell.row + PawnAdvance(enemy), cell.col);
      if !(InBounds(ahead) && IsEmpty(cells, ahead)) {
        return Walk([], None);
      }
      var yielded := [ahead];
      if !moved {
        var twoAhead := Pos(cell.row + 2 * PawnAdvance(enemy), cell.col);
        if !InBounds(twoAhead) {
          return Walk(yielded, Some(OffBoardRead));
        }
        if IsEmpty(cells, twoAhead) {
          yielded := yielded + [twoAhead];
        }
      }
      return Walk(yielded, None);
    }

    /** The two capture checks that close `processPawnSteps`. */
    method ProcessPawnCaptures(cell: Pos, enemy: Color, color: Color) returns (yielded: seq<Pos>)
      requires WellFormed(chessboard.cells)
      ensures yielded == PawnCaptures(chessboard.cells, cell, enemy, color)
    {
      var cells := chessboard.cells;
      yielded := [];
      var left := Pos(cell.row + PawnAdvance(enemy), cell.col + 1);
      if InBounds(left) && HoldsColor(cells, left, enemy) {
        yielded := [left];
      }
      var right := Pos(cell.row + (if color == White then -1 else 1), cell.col - 1);
      if InBounds(right) && HoldsColor(cells, right, enemy) {
        yielded := yielded + [right];
      }
    }

    /** The `switch` of `canMoveFromCell` on the kind of a figure other than the King. */
    method ProcessFigureSteps(cell: Pos, enemy: Color) returns (w: Walk)
      requires WellFormed(chessboard.cells) && InBounds(cell) && At(chessboard.cells, cell).figure.Some?
      ensures w == LegacyPatternWalk(chessboard.cells, cell, enemy)
    {
      assert AllUnit(StraightDirections) && AllUnit(DiagonalDirections);
      var yielded: seq<Pos>;
      match At(chessboard.cells, cell).figure.value.figureName {
        case Rook =>
          yielded := ProcessLines(cell, StraightDirections, enemy, None);
        case Knight =>
          yielded := ProcessOffsetSteps(cell, KnightOffsets, enemy);
        case Bishop =>
          yielded := ProcessLines(cell, DiagonalDirections, enemy, None);
        case Queen =>
          var straight := ProcessLines(cell, StraightDirections, enemy, None);
          var diagonal := ProcessLines(cell, DiagonalDirections, enemy, None);
          yielded := straight + diagonal;
        case King =>
          yielded := ProcessOffsetSteps(cell, KingOffsets, enemy);
        case Pawn =>
          w := ProcessPawnSteps(cell, enemy);
          return;
      }
      w := Walk(yielded, None);
    }

    /** A search callback of `doEnemyReachesSpecialCell`: stops at the first `enemy` figure of `kinds`. */
    method FindHolding(squares: seq<Pos>, enemy: Color, kinds: set<FigureName>) returns (enemyFound: bool)
      requires WellFormed(chessboard.cells) && AllInBounds(squares)
      ensures enemyFound == (Holding(chessboard.cells, squares, enemy, kinds) != [])
    {
      var cells := chessboard.cells;
      enemyFound := false;
      for k := 0 to |squares|
        invariant Holding(cells, squares[..k], enemy, kinds) == []
      {
        assert squares[..k + 1][..k] == squares[..k];
        if HoldsKind(cells, squares[k], enemy, kinds) {
          assert squares[k] in Holding(cells, squares[..k + 1], enemy, kinds);
          HoldingPrefix(cells, squares, k + 1, enemy, kinds);
          return true;
        }
      }
      assert squares[..|squares|] == squares;
    }

    /** `doEnemyReachesSpecialCell`: the five searches in order, the first hit ending the test. */
    method DoEnemyReachesSpecialCell(cell: Pos, enemy: Color, ignored: Option<Pos>) returns (enemyFound: bool)
      requires WellFormed(chessboard.cells) && InBounds(cell)
      ensures enemyFound == EnemyReaches(chessboard.cells, cell, enemy, ignored)
    {
      EnemyReachesSplit(chessboard.cells, cell, enemy, ignored);
      var straight := ProcessLines(cell, StraightDirections, enemy, ignored);
      enemyFound := FindHolding(straight, enemy, {Rook, Queen});
      if enemyFound {
        return;
      }
      var diagonal := ProcessLines(cell, DiagonalDirections, enemy, ignored);
      enemyFound := FindHolding(diagonal, enemy, {Bishop, Queen});
      if enemyFound {
        return;
      }
      var kings := ProcessOffsetSteps(cell, KingOffsets, enemy);
      enemyFound := FindHolding(kings, enemy, {King});
      if enemyFound {
        return;
      }
      var knights := ProcessOffsetSteps(cell, KnightOffsets, enemy);
      enemyFound := FindHolding(knights, enemy, {Knight});
      if enemyFound {
        return;
      }
      var pawns := PawnSquaresOnBoard(cell, enemy);
      enemyFound := FindHolding(pawns, enemy, AllKinds);
    }

    /** The older `canMoveFromCell`: a flag set by the first square that lets the figure move. */
    method CanMoveFromCell(origin: Pos) returns (canMove: bool)
      requires WellFormed(chessboard.cells) && InBounds(origin)
      ensures canMove == LegacyCanMoveFrom(chessboard.cells, origin)
    {
      var figure := At(chessboard.cells, origin).figure;
      if figure.None? {
        return false;
      }
      var enemy := if figure.value.color == Black then White else Black;
      assert enemy == Opponent(figure.value.color);
      if figure.value.figureName == King {
        var near := ProcessOffsetSteps(origin, KingOffsets, enemy);
        canMove := FindSafeAroundKing(origin, near, enemy);
      } else {
        var walk := ProcessFigureSteps(origin, enemy);
        canMove := FindNonTeammate(origin, walk.squares);
      }
    }

    /** The King's callback in `canMoveFromCell`: skips teammates, stops at the first safe square. */
    method FindSafeAroundKing(origin: Pos, near: seq<Pos>, enemy: Color) returns (canMove: bool)
      requires WellFormed(chessboard.cells) && InBounds(origin) && AllInBounds(near)
      ensures canMove == LegacyFreeAroundKing(chessboard.cells, origin, near, enemy)
    {
      var cells := chessboard.cells;
      canMove := false;
      for i := 0 to |near|
        invariant !canMove
        invariant forall j :: 0 <= j < i ==> !LegacyKingMayGo(cells, origin, near[j], enemy)
      {
        if IsTeammates(At(cells, origin), At(cells, near[i])) {
          LegacyBlockedPrefix(cells, origin, near, i, enemy);
          continue;
        }
        var reached := DoEnemyReachesSpecialCell(near[i], enemy, Some(origin));
        if !reached {
          canMove := true;
          return;
        }
        LegacyBlockedPrefix(cells, origin, near, i, enemy);
      }
    }

    /** The other figures' callback in `canMoveFromCell`: stops at the first square not held by a teammate. */
    method FindNonTeammate(origin: Pos, squares: seq<Pos>) returns (canMove: bool)
      requires WellFormed(chessboard.cells) && InBounds(origin) && AllInBounds(squares)
      ensures canMove == SomeNonTeammate(chessboard.cells, origin, squares)
    {
      var cells := chessboard.cells;
      canMove := false;
      for i := 0 to |squares|
        invariant !canMove
        invariant forall j :: 0 <= j < i ==> IsTeammates(At(cells, origin), At(cells, squares[j]))
      {
        if !IsTeammates(At(cells, origin), At(cells, squares[i])) {
          canMove := true;
          return;
        }
      }
    }

    /** The older `findKingCell`: the nested row-major scan; `None` stands for its error. */
    method FindKingCell(color: Color) returns (king: Option<Pos>)
      requires WellFormed(chessboard.cells)
      ensures king == FindKing(chessboard.cells, color)
    {
      var cells := chessboard.cells;
      for i := 0 to Size
        invariant forall q :: InBounds(q) && q.row < i ==> !IsKingOf(cells, q, color)
      {
        for j := 0 to Size
          invariant forall q :: InBounds(q) && Before(q, Pos(i, j)) ==> !IsKingOf(cells, q, color)
        {
          if IsKingOf(cells, Pos(i, j), color) {
            FirstKingFound(cells, color, Pos(i, j));
            return Some(Pos(i, j));
          }
        }
      }
      return None;
    }

    /** The older `setOnMoveAction`: writes the status and the action of `to`, or reports its error. */
    method SetOnMoveAction(from: Pos, to: Pos) returns (fault: Option<Fault>)
      requires WellFormed(chessboard.cells) && InBounds(from) && InBounds(to)
      modifies chessboard
      ensures var r := LegacyInstallMove(old(chessboard.cells), from, to);
        && (r.Err? ==> fault == Some(r.fault) && chessboard.cells == old(chessboard.cells))
        && (r.Ok? ==> fault == None && chessboard.cells == r.value)
    {
      var cells := chessboard.cells;
      if IsTeammates(At(cells, from), At(cells, to)) {
        return Some(TeammateDestination);
      }
      var figure := At(cells, from).figure;
      if figure.Some? && figure.value.figureName == King {
        var enemyColor := if figure.value.color == White then Black else White;
        assert enemyColor == Opponent(figure.value.color);
        var reached := DoEnemyReachesSpecialCell(to, enemyColor, Some(from));
        if reached {
          return None;
        }
      }
      assert !KingVetoed(cells, from, to);
      var status := if At(cells, to).figure.Some? then Target else OnWay;
      chessboard.cells := SetStatus(cells, to, status, MoveAction(from, to));
      return None;
    }

    /** The closure the older `setOnMoveAction` installs, run between its hooks. */
    method RunMoveAction(from: Pos, to: Pos)
      requires WellFormed(chessboard.cells) && InBounds(from) && InBounds(to)
      modifies chessboard
      ensures chessboard.cells == Relocate(old(chessboard.cells), from, to)
    {
      chessboard.cells := SetFigure(chessboard.cells, to, At(chessboard.cells, from).figure);
      chessboard.cells := SetFigure(chessboard.cells, from, None);
      var landed := At(chessboard.cells, to).figure;
      if landed.Some? && landed.value.figureName == Pawn {
        chessboard.cells := SetFigure(chessboard.cells, to, Some(landed.value.(moved := true)));
      }
    }
  }

  /** One more square of `near` where the King may not go extends the blocked prefix. */
  lemma LegacyBlockedPrefix(g: Grid, origin: Pos, near: seq<Pos>, i: int, enemy: Color)
    requires WellFormed(g) && InBounds(origin) && AllInBounds(near) && 0 <= i < |near|
    requires forall j :: 0 <= j < i ==> !LegacyKingMayGo(g, origin, near[j], enemy)
    requires !LegacyKingMayGo(g, origin, near[i], enemy)
    ensures forall j :: 0 <= j < i + 1 ==> !LegacyKingMayGo(g, origin, near[j], enemy)
  {
  }

  /** A hit among the first `k` squares is a hit among all of them. */
  lemma {:induction false} HoldingPrefix(g: Grid, ps: seq<Pos>, k: int, c: Color, kinds: set<FigureName>)
    requires WellFormed(g) && AllInBounds(ps) && 0 <= k <= |ps|
    requires Holding(g, ps[..k], c, kinds) != []
    ensures Holding(g, ps, c, kinds) != []
  {
    var q := Holding(g, ps[..k], c, kinds)[0];
    assert q in Holding(g, ps[..k], c, kinds);
    assert q in ps;
  }
}
