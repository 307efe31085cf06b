/** Every move permutes the 54 sticker positions: the colour a move shows at a
    position is the colour that was at one source position, and the map from
    positions to their sources is a bijection. */
module CubePermutation {
  import opened Types
  import opened CubeLogic
  import opened CubeGroup
  import opened CubeFrame

  /** The side face whose strip a U turn carries onto `f` (forward: F <- R <- B <- L <- F)
      or, backward, the reverse cycle. U and D are not side faces and map to themselves. */
  function Side(f: FaceName, forward: bool): FaceName {
    match f
    case F => if forward then FaceName.R else FaceName.L
    case R => if forward then FaceName.B else FaceName.F
    case B => if forward then FaceName.L else FaceName.R
    case L => if forward then FaceName.F else FaceName.B
    case _ => f
  }

  /** Where the plate cell at `p` is read from when its face turns
      (`rotateFace`: clockwise `old[2-c][r]`, counter-clockwise `old[c][2-r]`). */
  function Plate(clockwise: bool, p: Pos): Pos {
    if clockwise then Pos(p.face, 2 - p.col, p.row) else Pos(p.face, p.col, 2 - p.row)
  }

  /** Row `r` of the four side faces cycles (the U, E and D turns). */
  function RowOrigin(r: Idx, forward: bool, p: Pos): Pos {
    if p.face != FaceName.U && p.face != FaceName.D && p.row == r then p.(face := Side(p.face, forward)) else p
  }

  /** Column `c` of U, F and D and column `2 - c` of B, read upside down, cycle (the
      L, M and R turns). Going down, U's column moves onto F, F's onto D, D's onto B
      and B's onto U. */
  function ColOrigin(c: Idx, down: bool, p: Pos): Pos {
    match p.face
    case U => if p.col != c then p else if down then Pos(FaceName.B, 2 - p.row, 2 - c) else Pos(FaceName.F, p.row, c)
    case F => if p.col != c then p else if down then Pos(FaceName.U, p.row, c) else Pos(FaceName.D, p.row, c)
    case D => if p.col != c then p else if down then Pos(FaceName.F, p.row, c) else Pos(FaceName.B, 2 - p.row, 2 - c)
    case B => if p.col != 2 - c then p else if down then Pos(FaceName.D, 2 - p.row, c) else Pos(FaceName.U, 2 - p.row, c)
    case _ => p
  }

  /** The ring at depth `d` behind the front face (row `2 - d` of U, column `2 - d` of L,
      row `d` of D, column `d` of R) cycles as an F turn carries it, clockwise
      U -> R -> D -> L -> U, or the reverse (the F, S and B turns). */
  function RingOrigin(d: Idx, clockwise: bool, p: Pos): Pos {
    match p.face
    case U => if p.row != 2 - d then p else if clockwise then Pos(FaceName.L, 2 - p.col, 2 - d) else Pos(FaceName.R, p.col, d)
    case L => if p.col != 2 - d then p else if clockwise then Pos(FaceName.D, d, p.row) else Pos(FaceName.U, 2 - d, 2 - p.row)
    case D => if p.row != d then p else if clockwise then Pos(FaceName.R, 2 - p.col, d) else Pos(FaceName.L, p.col, 2 - d)
    case R => if p.col != d then p else if clockwise then Pos(FaceName.U, 2 - d, p.row) else Pos(FaceName.D, d, 2 - p.row)
    case _ => p
  }

  /** Where the sticker that a quarter turn of `l` (clockwise or not) shows at `p`
      comes from. A whole-cube letter composes its three layer turns, the last one
      applied first. */
  function TurnOrigin(l: Letter, clockwise: bool, p: Pos): Pos
    decreases Rank(Move(l, Plain))
  {
    match l
    case U => if p.face == FaceName.U then Plate(clockwise, p) else RowOrigin(0, clockwise, p)
    case D => if p.face == FaceName.D then Plate(clockwise, p) else RowOrigin(2, !clockwise, p)
    case E => RowOrigin(1, !clockwise, p)
    case L => if p.face == FaceName.L then Plate(clockwise, p) else ColOrigin(0, clockwise, p)
    case M => ColOrigin(1, clockwise, p)
    case R => if p.face == FaceName.R then Plate(clockwise, p) else ColOrigin(2, !clockwise, p)
    case F => if p.face == FaceName.F then Plate(clockwise, p) else RingOrigin(0, clockwise, p)
    case S => RingOrigin(1, clockwise, p)
    case B => if p.face == FaceName.B then Plate(clockwise, p) else RingOrigin(2, !clockwise, p)
    // z = U E' D', y = R M' L', x = F S B' (and their primes, every direction flipped)
    case z => TurnOrigin(Letter.U, clockwise, TurnOrigin(Letter.E, !clockwise, TurnOrigin(Letter.D, !clockwise, p)))
    case y => TurnOrigin(Letter.R, clockwise, TurnOrigin(Letter.M, !clockwise, TurnOrigin(Letter.L, !clockwise, p)))
    case x => TurnOrigin(Letter.F, clockwise, TurnOrigin(Letter.S, clockwise, TurnOrigin(Letter.B, !clockwise, p)))
  }

  /** Where the sticker that a quarter turn of `l` moves away from `p` lands: the
      inverse turn's origin map, for a whole-cube letter composed in reverse order. */
  function TurnTarget(l: Letter, clockwise: bool, p: Pos): Pos {
    match l
    case z => TurnOrigin(Letter.D, clockwise, TurnOrigin(Letter.E, clockwise, TurnOrigin(Letter.U, !clockwise, p)))
    case y => TurnOrigin(Letter.L, clockwise, TurnOrigin(Letter.M, clockwise, TurnOrigin(Letter.R, !clockwise, p)))
    case x => TurnOrigin(Letter.B, clockwise, TurnOrigin(Letter.S, !clockwise, TurnOrigin(Letter.F, !clockwise, p)))
    case _ => TurnOrigin(l, !clockwise, p)
  }

  /** The position whose colour move `m` shows at `p`; a doubled move moves nothing. */
  function Origin(m: Move, p: Pos): Pos {
    if m.IsDouble() then p else TurnOrigin(m.letter, m.IsPlain(), p)
  }

  /** The position to which move `m` carries the colour at `p`. */
  function Target(m: Move, p: Pos): Pos {
    if m.IsDouble() then p else TurnTarget(m.letter, m.IsPlain(), p)
  }

  // Each strip cycle run one way and then the other puts every position back.

  lemma PlateInverse(clockwise: bool, p: Pos)
    ensures Plate(!clockwise, Plate(clockwise, p)) == p
  {
  }

  lemma RowOriginInverse(r: Idx, forward: bool, p: Pos)
    ensures RowOrigin(r, !forward, RowOrigin(r, forward, p)) == p
    ensures (RowOrigin(r, forward, p).face == FaceName.U) == (p.face == FaceName.U)
    ensures (RowOrigin(r, forward, p).face == FaceName.D) == (p.face == FaceName.D)
  {
  }

  lemma ColOriginInverse(c: Idx, down: bool, p: Pos)
    ensures ColOrigin(c, !down, ColOrigin(c, down, p)) == p
    ensures (ColOrigin(c, down, p).face == FaceName.L) == (p.face == FaceName.L)
    ensures (ColOrigin(c, down, p).face == FaceName.R) == (p.face == FaceName.R)
  {
  }

  lemma RingOriginInverse(d: Idx, clockwise: bool, p: Pos)
    ensures RingOrigin(d, !clockwise, RingOrigin(d, clockwise, p)) == p
    ensures (RingOrigin(d, clockwise, p).face == FaceName.F) == (p.face == FaceName.F)
    ensures (RingOrigin(d, clockwise, p).face == FaceName.B) == (p.face == FaceName.B)
  {
  }

  /** The two directions of a face or slice turn have inverse origin maps. */
  lemma LayerOriginInverse(l: Letter, clockwise: bool, p: Pos)
    requires !Move(l, Plain).IsWholeCube()
    ensures TurnOrigin(l, !clockwise, TurnOrigin(l, clockwise, p)) == p
  {
    PlateInverse(clockwise, p);
    match l
    case U => RowOriginInverse(0, clockwise, p);
    case D => RowOriginInverse(2, !clockwise, p);
    case E => RowOriginInverse(1, !clockwise, p);
    case L => ColOriginInverse(0, clockwise, p);
    case M => ColOriginInverse(1, clockwise, p);
    case R => ColOriginInverse(2, !clockwise, p);
    case F => RingOriginInverse(0, clockwise, p);
    case S => RingOriginInverse(1, clockwise, p);
    case B => RingOriginInverse(2, !clockwise, p);
  }

  lemma WholeCubeZBijective(clockwise: bool, p: Pos)
    ensures TurnTarget(Letter.z, clockwise, TurnOrigin(Letter.z, clockwise, p)) == p
    ensures TurnOrigin(Letter.z, clockwise, TurnTarget(Letter.z, clockwise, p)) == p
  {
    LayerOriginInverse(Letter.D, !clockwise, p);
    LayerOriginInverse(Letter.E, !clockwise, TurnOrigin(Letter.D, !clockwise, p));
    LayerOriginInverse(Letter.U, clockwise, TurnOrigin(Letter.E, !clockwise, TurnOrigin(Letter.D, !clockwise, p)));
    LayerOriginInverse(Letter.U, !clockwise, p);
    LayerOriginInverse(Letter.E, clockwise, TurnOrigin(Letter.U, !clockwise, p));
    LayerOriginInverse(Letter.D, clockwise, TurnOrigin(Letter.E, clockwise, TurnOrigin(Letter.U, !clockwise, p)));
  }

  lemma WholeCubeYBijective(clockwise: bool, p: Pos)
    ensures TurnTarget(Letter.y, clockwise, TurnOrigin(Letter.y, clockwise, p)) == p
    ensures TurnOrigin(Letter.y, clockwise, TurnTarget(Letter.y, clockwise, p)) == p
  {
    LayerOriginInverse(Letter.L, !clockwise, p);
    LayerOriginInverse(Letter.M, !clockwise, TurnOrigin(Letter.L, !clockwise, p));
    LayerOriginInverse(Letter.R, clockwise, TurnOrigin(Letter.M, !clockwise, TurnOrigin(Letter.L, !clockwise, p)));
    LayerOriginInverse(Letter.R, !clockwise, p);
    LayerOriginInverse(Letter.M, clockwise, TurnOrigin(Letter.R, !clockwise, p));
    LayerOriginInverse(Letter.L, clockwise, TurnOrigin(Letter.M, clockwise, TurnOrigin(Letter.R, !clockwise, p)));
  }

  lemma WholeCubeXBijective(clockwise: bool, p: Pos)
    ensures TurnTarget(Letter.x, clockwise, TurnOrigin(Letter.x, clockwise, p)) == p
    ensures TurnOrigin(Letter.x, clockwise, TurnTarget(Letter.x, clockwise, p)) == p
  {
    LayerOriginInverse(Letter.B, !clockwise, p);
    LayerOriginInverse(Letter.S, clockwise, TurnOrigin(Letter.B, !clockwise, p));
    LayerOriginInverse(Letter.F, clockwise, TurnOrigin(Letter.S, clockwise, TurnOrigin(Letter.B, !clockwise, p)));
    LayerOriginInverse(Letter.F, !clockwise, p);
    LayerOriginInverse(Letter.S, !clockwise, TurnOrigin(Letter.F, !clockwise, p));
    LayerOriginInverse(Letter.B, clockwise, TurnOrigin(Letter.S, !clockwise, TurnOrigin(Letter.F, !clockwise, p)));
  }

  /** Every move permutes the 54 positions: `Target` undoes `Origin` and `Origin`
      undoes `Target`. */
  lemma OriginBijective(m: Move, p: Pos)
    ensures Target(m, Origin(m, p)) == p
    ensures Origin(m, Target(m, p)) == p
  {
    if !m.IsDouble() {
      var cw := m.IsPlain();
      match m.letter
      case z => WholeCubeZBijective(cw, p);
      case y => WholeCubeYBijective(cw, p);
      case x => WholeCubeXBijective(cw, p);
      case _ =>
        LayerOriginInverse(m.letter, cw, p);
        LayerOriginInverse(m.letter, !cw, p);
    }
  }

  /** No two positions take their colour from the same position. */
  lemma OriginInjective(m: Move, p: Pos, q: Pos)
    ensures Origin(m, p) == Origin(m, q) <==> p == q
  {
    OriginBijective(m, p);
    OriginBijective(m, q);
  }

  // Per table: each shows at every position the colour of its origin.

  lemma ColoursFromU(s: Cube, p: Pos)
    ensures Cell(TurnU(s), p).color == Cell(s, TurnOrigin(Letter.U, true, p)).color
  {
    match p.face
    case U =>
    case D =>
    case L =>
    case R =>
    case F =>
    case B =>
  }

  lemma ColoursFromUPrime(s: Cube, p: Pos)
    ensures Cell(TurnUPrime(s), p).color == Cell(s, TurnOrigin(Letter.U, false, p)).color
  {
    match p.face
    case U =>
    case D =>
    case L =>
    case R =>
    case F =>
    case B =>
  }

  lemma ColoursFromD(s: Cube, p: Pos)
    ensures Cell(TurnD(s), p).color == Cell(s, TurnOrigin(Letter.D, true, p)).color
  {
    match p.face
    case U =>
    case D =>
    case L =>
    case R =>
    case F =>
    case B =>
  }

  lemma ColoursFromDPrime(s: Cube, p: Pos)
    ensures Cell(TurnDPrime(s), p).color == Cell(s, TurnOrigin(Letter.D, false, p)).color
  {
    match p.face
    case U =>
    case D =>
    case L =>
    case R =>
    case F =>
    case B =>
  }

  lemma ColoursFromE(s: Cube, p: Pos)
    ensures Cell(TurnE(s), p).color == Cell(s, TurnOrigin(Letter.E, true, p)).color
  {
    match p.face
    case U =>
    case D =>
    case L =>
    case R =>
    case F =>
    case B =>
  }

  lemma ColoursFromEPrime(s: Cube, p: Pos)
    ensures Cell(TurnEPrime(s), p).color == Cell(s, TurnOrigin(Letter.E, false, p)).color
  {
    match p.face
    case U =>
    case D =>
    case L =>
    case R =>
    case F =>
    case B =>
  }

  lemma ColoursFromL(s: Cube, p: Pos)
    ensures Cell(TurnL(s), p).color == Cell(s, TurnOrigin(Letter.L, true, p)).color
  {
    match p.face
    case U =>
    case D =>
    case L =>
    case R =>
    case F =>
    case B =>
  }

  lemma ColoursFromLPrime(s: Cube, p: Pos)
    ensures Cell(TurnLPrime(s), p).color == Cell(s, TurnOrigin(Letter.L, false, p)).color
  {
    match p.face
    case U =>
    case D =>
    case L =>
    case R =>
    case F =>
    case B =>
  }

  lemma ColoursFromM(s: Cube, p: Pos)
    ensures Cell(TurnM(s), p).color == Cell(s, TurnOrigin(Letter.M, true, p)).color
  {
    match p.face
    case U => WithColAt(s.U, 1, s.B.Col(1).Reversed()); ReversedAt(s.B.Col(1)); ColAt(s.B, 1);
    case D => WithColAt(s.D, 1, s.F.Col(1)); ColAt(s.F, 1);
    case L =>
    case R =>
    case F => WithColAt(s.F, 1, s.U.Col(1)); ColAt(s.U, 1);
    case B => WithColAt(s.B, 1, s.D.Col(1).Reversed()); ReversedAt(s.D.Col(1)); ColAt(s.D, 1);
  }

  lemma ColoursFromMPrime(s: Cube, p: Pos)
    ensures Cell(TurnMPrime(s), p).color == Cell(s, TurnOrigin(Letter.M, false, p)).color
  {
    match p.face
    case U =>
    case D =>
    case L =>
    case R =>
    case F =>
    case B =>
  }

  lemma ColoursFromR(s: Cube, p: Pos)
    ensures Cell(TurnR(s), p).color == Cell(s, TurnOrigin(Letter.R, true, p)).color
  {
    match p.face
    case U =>
    case D =>
    case L =>
    case R =>
    case F =>
    case B =>
  }

  lemma ColoursFromRPrime(s: Cube, p: Pos)
    ensures Cell(TurnRPrime(s), p).color == Cell(s, TurnOrigin(Letter.R, false, p)).color
  {
    match p.face
    case U =>
    case D =>
    case L =>
    case R =>
    case F =>
    case B =>
  }

  lemma ColoursFromF(s: Cube, p: Pos)
    ensures Cell(TurnF(s), p).color == Cell(s, TurnOrigin(Letter.F, true, p)).color
  {
    match p.face
    case U =>
    case D =>
    case L =>
    case R =>
    case F =>
    case B =>
  }

  lemma ColoursFromFPrime(s: Cube, p: Pos)
    ensures Cell(TurnFPrime(s), p).color == Cell(s, TurnOrigin(Letter.F, false, p)).color
  {
    match p.face
    case U =>
    case D =>
    case L =>
    case R =>
    case F =>
    case B =>
  }

  lemma ColoursFromS(s: Cube, p: Pos)
    ensures Cell(TurnS(s), p).color == Cell(s, TurnOrigin(Letter.S, true, p)).color
  {
    match p.face
    case U =>
    case D =>
    case L =>
    case R =>
    case F =>
    case B =>
  }

  lemma ColoursFromSPrime(s: Cube, p: Pos)
    ensures Cell(TurnSPrime(s), p).color == Cell(s, TurnOrigin(Letter.S, false, p)).color
  {
    match p.face
    case U =>
    case D =>
    case L =>
    case R =>
    case F =>
    case B =>
  }

  lemma ColoursFromB(s: Cube, p: Pos)
    ensures Cell(TurnB(s), p).color == Cell(s, TurnOrigin(Letter.B, true, p)).color
  {
    match p.face
    case U =>
    case D =>
    case L =>
    case R =>
    case F =>
    case B =>
  }

  lemma ColoursFromBPrime(s: Cube, p: Pos)
    ensures Cell(TurnBPrime(s), p).color == Cell(s, TurnOrigin(Letter.B, false, p)).color
  {
    match p.face
    case U =>
    case D =>
    case L =>
    case R =>
    case F =>
    case B =>
  }

  /** A face or slice move shows at every position the colour of its origin
      (a doubled move shows every colour where it was). */
  lemma LayerTurnShowsOrigin(s: Cube, m: Move, p: Pos)
    requires !m.IsWholeCube()
    ensures Cell(Apply(s, m), p).color == Cell(s, Origin(m, p)).color
  {
    match m.letter
    case U => VerticalShowsOrigin(s, m, p);
    case D => VerticalShowsOrigin(s, m, p);
    case E => VerticalShowsOrigin(s, m, p);
    case L => SidewaysShowsOrigin(s, m, p);
    case M => SidewaysShowsOrigin(s, m, p);
    case R => SidewaysShowsOrigin(s, m, p);
    case F => FrontalShowsOrigin(s, m, p);
    case S => FrontalShowsOrigin(s, m, p);
    case B => FrontalShowsOrigin(s, m, p);
  }

  lemma VerticalShowsOrigin(s: Cube, m: Move, p: Pos)
    requires m.letter == Letter.U || m.letter == Letter.D || m.letter == Letter.E
    ensures Cell(Apply(s, m), p).color == Cell(s, Origin(m, p)).color
  {
    if m.letter == Letter.U {
      ApplyOfU(s, m);
      ColoursFromU(s, p);
      ColoursFromUPrime(s, p);
    } else if m.letter == Letter.D {
      ApplyOfD(s, m);
      ColoursFromD(s, p);
      ColoursFromDPrime(s, p);
    } else {
      ApplyOfE(s, m);
      ColoursFromE(s, p);
      ColoursFromEPrime(s, p);
    }
  }

  lemma SidewaysShowsOrigin(s: Cube, m: Move, p: Pos)
    requires m.letter == Letter.L || m.letter == Letter.M || m.letter == Letter.R
    ensures Cell(Apply(s, m), p).color == Cell(s, Origin(m, p)).color
  {
    if m.letter == Letter.L {
      ApplyOfL(s, m);
      ColoursFromL(s, p);
      ColoursFromLPrime(s, p);
    } else if m.letter == Letter.M {
      ApplyOfM(s, m);
      ColoursFromM(s, p);
      ColoursFromMPrime(s, p);
    } else {
      ApplyOfR(s, m);
      ColoursFromR(s, p);
      ColoursFromRPrime(s, p);
    }
  }

  lemma FrontalShowsOrigin(s: Cube, m: Move, p: Pos)
    requires m.letter == Letter.F || m.letter == Letter.S || m.letter == Letter.B
    ensures Cell(Apply(s, m), p).color == Cell(s, Origin(m, p)).color
  {
    if m.letter == Letter.F {
      ApplyOfF(s, m);
      ColoursFromF(s, p);
      ColoursFromFPrime(s, p);
    } else if m.letter == Letter.S {
      ApplyOfS(s, m);
      ColoursFromS(s, p);
      ColoursFromSPrime(s, p);
    } else {
      ApplyOfB(s, m);
      ColoursFromB(s, p);
      ColoursFromBPrime(s, p);
    }
  }

  /** The source maps of the whole-cube turns, written out as their three layer maps. */
  lemma WholeCubeOrigins(clockwise: bool, p: Pos)
    ensures TurnOrigin(Letter.z, clockwise, p)
      == TurnOrigin(Letter.U, clockwise, TurnOrigin(Letter.E, !clockwise, TurnOrigin(Letter.D, !clockwise, p)))
    ensures TurnOrigin(Letter.y, clockwise, p)
      == TurnOrigin(Letter.R, clockwise, TurnOrigin(Letter.M, !clockwise, TurnOrigin(Letter.L, !clockwise, p)))
    ensures TurnOrigin(Letter.x, clockwise, p)
      == TurnOrigin(Letter.F, clockwise, TurnOrigin(Letter.S, clockwise, TurnOrigin(Letter.B, !clockwise, p)))
  {
  }

  /** The three turns of `z` carry each colour from its origin. */
  lemma ZTurnsShowOrigin(s: Cube, p: Pos)
    ensures Cell(TurnDPrime(TurnEPrime(TurnU(s))), p).color == Cell(s, TurnOrigin(Letter.U, true, TurnOrigin(Letter.E, false, TurnOrigin(Letter.D, false, p)))).color
  {
    var t1 := TurnU(s);
    var t2 := TurnEPrime(t1);
    ColoursFromDPrime(t2, p);
    ColoursFromEPrime(t1, TurnOrigin(Letter.D, false, p));
    ColoursFromU(s, TurnOrigin(Letter.E, false, TurnOrigin(Letter.D, false, p)));
  }

  /** The three turns of `z'` carry each colour from its origin. */
  lemma ZPrimeTurnsShowOrigin(s: Cube, p: Pos)
    ensures Cell(TurnD(TurnE(TurnUPrime(s))), p).color == Cell(s, TurnOrigin(Letter.U, false, TurnOrigin(Letter.E, true, TurnOrigin(Letter.D, true, p)))).color
  {
    var t1 := TurnUPrime(s);
    var t2 := TurnE(t1);
    ColoursFromD(t2, p);
    ColoursFromE(t1, TurnOrigin(Letter.D, true, p));
    ColoursFromUPrime(s, TurnOrigin(Letter.E, true, TurnOrigin(Letter.D, true, p)));
  }

  lemma WholeCubeZShowsOrigin(s: Cube, m: Move, p: Pos)
    requires m.letter == Letter.z
    ensures Cell(Apply(s, m), p).color == Cell(s, Origin(m, p)).color
  {
    ApplyOfZ(s, m);
    if m.IsPlain() {
      ZFormulaTurns(s);
      WholeCubeOrigins(true, p);
      ZTurnsShowOrigin(s, p);
    } else if m.IsPrime() {
      ZPrimeFormulaTurns(s);
      WholeCubeOrigins(false, p);
      ZPrimeTurnsShowOrigin(s, p);
    }
  }

  /** The three turns of `y` carry each colour from its origin. */
  lemma YTurnsShowOrigin(s: Cube, p: Pos)
    ensures Cell(TurnLPrime(TurnMPrime(TurnR(s))), p).color == Cell(s, TurnOrigin(Letter.R, true, TurnOrigin(Letter.M, false, TurnOrigin(Letter.L, false, p)))).color
  {
    var t1 := TurnR(s);
    var t2 := TurnMPrime(t1);
    ColoursFromLPrime(t2, p);
    ColoursFromMPrime(t1, TurnOrigin(Letter.L, false, p));
    ColoursFromR(s, TurnOrigin(Letter.M, false, TurnOrigin(Letter.L, false, p)));
  }

  /** The three turns of `y'` carry each colour from its origin. */
  lemma YPrimeTurnsShowOrigin(s: Cube, p: Pos)
    ensures Cell(TurnL(TurnM(TurnRPrime(s))), p).color == Cell(s, TurnOrigin(Letter.R, false, TurnOrigin(Letter.M, true, TurnOrigin(Letter.L, true, p)))).color
  {
    var t1 := TurnRPrime(s);
    var t2 := TurnM(t1);
    ColoursFromL(t2, p);
    ColoursFromM(t1, TurnOrigin(Letter.L, true, p));
    ColoursFromRPrime(s, TurnOrigin(Letter.M, true, TurnOrigin(Letter.L, true, p)));
  }

  lemma WholeCubeYShowsOrigin(s: Cube, m: Move, p: Pos)
    requires m.letter == Letter.y
    ensures Cell(Apply(s, m), p).color == Cell(s, Origin(m, p)).color
  {
    ApplyOfY(s, m);
    if m.IsPlain() {
      YFormulaTurns(s);
      WholeCubeOrigins(true, p);
      YTurnsShowOrigin(s, p);
    } else if m.IsPrime() {
      YPrimeFormulaTurns(s);
      WholeCubeOrigins(false, p);
      YPrimeTurnsShowOrigin(s, p);
    }
  }

  /** The three turns of `x` carry each colour from its origin. */
  lemma XTurnsShowOrigin(s: Cube, p: Pos)
    ensures Cell(TurnBPrime(TurnS(TurnF(s))), p).color == Cell(s, TurnOrigin(Letter.F, true, TurnOrigin(Letter.S, true, TurnOrigin(Letter.B, false, p)))).color
  {
    var t1 := TurnF(s);
    var t2 := TurnS(t1);
    ColoursFromBPrime(t2, p);
    ColoursFromS(t1, TurnOrigin(Letter.B, false, p));
    ColoursFromF(s, TurnOrigin(Letter.S, true, TurnOrigin(Letter.B, false, p)));
  }

  /** The three turns of `x'` carry each colour from its origin. */
  lemma XPrimeTurnsShowOrigin(s: Cube, p: Pos)
    ensures Cell(TurnB(TurnSPrime(TurnFPrime(s))), p).color == Cell(s, TurnOrigin(Letter.F, false, TurnOrigin(Letter.S, false, TurnOrigin(Letter.B, true, p)))).color
  {
    var t1 := TurnFPrime(s);
    var t2 := TurnSPrime(t1);
    ColoursFromB(t2, p);
    ColoursFromSPrime(t1, TurnOrigin(Letter.B, true, p));
    ColoursFromFPrime(s, TurnOrigin(Letter.S, false, TurnOrigin(Letter.B, true, p)));
  }

  lemma WholeCubeXShowsOrigin(s: Cube, m: Move, p: Pos)
    requires m.letter == Letter.x
    ensures Cell(Apply(s, m), p).color == Cell(s, Origin(m, p)).color
  {
    ApplyOfX(s, m);
    if m.IsPlain() {
      XFormulaTurns(s);
      WholeCubeOrigins(true, p);
      XTurnsShowOrigin(s, p);
    } else if m.IsPrime() {
      XPrimeFormulaTurns(s);
      WholeCubeOrigins(false, p);
      XPrimeTurnsShowOrigin(s, p);
    }
  }

  /** Every move, of any letter and kind, shows at each position the colour that was
      at its origin: with `OriginBijective`, the move permutes the 54 stickers. */
  lemma ApplyShowsOrigin(s: Cube, m: Move, p: Pos)
    ensures Cell(Apply(s, m), p).color == Cell(s, Origin(m, p)).color
  {
    match m.letter
    case z => WholeCubeZShowsOrigin(s, m, p);
    case y => WholeCubeYShowsOrigin(s, m, p);
    case x => WholeCubeXShowsOrigin(s, m, p);
    case _ => LayerTurnShowsOrigin(s, m, p);
  }

  /** The origin of a position under a list of moves: the first move is traced last. */
  function Origins(ms: seq<Move>, p: Pos): Pos {
    if ms == [] then p else Origin(ms[0], Origins(ms[1..], p))
  }

  /** A list of moves shows at each position the colour that was at its origin. */
  lemma {:induction false} ApplyMovesShowOrigins(s: Cube, ms: seq<Move>, p: Pos)
    ensures Cell(ApplyMoves(s, ms), p).color == Cell(s, Origins(ms, p)).color
    decreases |ms|
  {
    if ms != [] {
      ApplyMovesShowOrigins(Apply(s, ms[0]), ms[1..], p);
      ApplyShowsOrigin(s, ms[0], Origins(ms[1..], p));
    }
  }

  /** A layer move takes every position outside its layer from itself, as the frame
      lemmas say of the cells there. */
  lemma OriginOutsideLayer(m: Move, p: Pos)
    requires !InLayer(m.letter, p)
    ensures Origin(m, p) == p
  {
  }
}
