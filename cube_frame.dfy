/** Locality of layer turns: a face or slice turn touches only the stickers of its own
    layer, and every other sticker keeps its colour and glyph angle. */
module CubeFrame {
  import opened Types
  import opened CubeLogic

  /** Whether the sticker at `p` belongs to the layer that `l` turns: the turned face
      plate together with the strips of the four faces around it, or for a slice the
      middle strips it carries. A whole-cube letter moves every sticker. */
  predicate InLayer(l: Letter, p: Pos) {
    match l
    case U => p.face == FaceName.U || (p.face != FaceName.D && p.row == 0)
    case D => p.face == FaceName.D || (p.face != FaceName.U && p.row == 2)
    case E => p.face != FaceName.U && p.face != FaceName.D && p.row == 1
    case L => p.face == FaceName.L || (p.face == FaceName.B && p.col == 2)
              || ((p.face == FaceName.U || p.face == FaceName.D || p.face == FaceName.F) && p.col == 0)
    case R => p.face == FaceName.R || (p.face == FaceName.B && p.col == 0)
              || ((p.face == FaceName.U || p.face == FaceName.D || p.face == FaceName.F) && p.col == 2)
    case M => p.face != FaceName.L && p.face != FaceName.R && p.col == 1
    case F => p.face == FaceName.F || (p.face == FaceName.U && p.row == 2) || (p.face == FaceName.D && p.row == 0)
              || (p.face == FaceName.L && p.col == 2) || (p.face == FaceName.R && p.col == 0)
    case B => p.face == FaceName.B || (p.face == FaceName.U && p.row == 0) || (p.face == FaceName.D && p.row == 2)
              || (p.face == FaceName.L && p.col == 0) || (p.face == FaceName.R && p.col == 2)
    case S => ((p.face == FaceName.U || p.face == FaceName.D) && p.row == 1)
              || ((p.face == FaceName.L || p.face == FaceName.R) && p.col == 1)
    case x => true
    case y => true
    case z => true
  }

  lemma FrameU(s: Cube, p: Pos)
    requires !InLayer(Letter.U, p)
    ensures Cell(TurnU(s), p) == Cell(s, p)
    ensures Cell(TurnUPrime(s), p) == Cell(s, p)
  {
  }

  lemma FrameD(s: Cube, p: Pos)
    requires !InLayer(Letter.D, p)
    ensures Cell(TurnD(s), p) == Cell(s, p)
    ensures Cell(TurnDPrime(s), p) == Cell(s, p)
  {
  }

  lemma FrameE(s: Cube, p: Pos)
    requires !InLayer(Letter.E, p)
    ensures Cell(TurnE(s), p) == Cell(s, p)
    ensures Cell(TurnEPrime(s), p) == Cell(s, p)
  {
  }

  lemma FrameL(s: Cube, p: Pos)
    requires !InLayer(Letter.L, p)
    ensures Cell(TurnL(s), p) == Cell(s, p)
    ensures Cell(TurnLPrime(s), p) == Cell(s, p)
  {
  }

  lemma FrameR(s: Cube, p: Pos)
    requires !InLayer(Letter.R, p)
    ensures Cell(TurnR(s), p) == Cell(s, p)
    ensures Cell(TurnRPrime(s), p) == Cell(s, p)
  {
  }

  lemma FrameM(s: Cube, p: Pos)
    requires !InLayer(Letter.M, p)
    ensures Cell(TurnM(s), p) == Cell(s, p)
    ensures Cell(TurnMPrime(s), p) == Cell(s, p)
  {
  }

  lemma FrameF(s: Cube, p: Pos)
    requires !InLayer(Letter.F, p)
    ensures Cell(TurnF(s), p) == Cell(s, p)
    ensures Cell(TurnFPrime(s), p) == Cell(s, p)
  {
  }

  lemma FrameB(s: Cube, p: Pos)
    requires !InLayer(Letter.B, p)
    ensures Cell(TurnB(s), p) == Cell(s, p)
    ensures Cell(TurnBPrime(s), p) == Cell(s, p)
  {
  }

  lemma FrameS(s: Cube, p: Pos)
    requires !InLayer(Letter.S, p)
    ensures Cell(TurnS(s), p) == Cell(s, p)
    ensures Cell(TurnSPrime(s), p) == Cell(s, p)
  {
  }

  /** A move leaves every sticker outside its layer where it was. */
  lemma ApplyLeavesOthers(s: Cube, m: Move, p: Pos)
    requires !InLayer(m.letter, p)
    ensures Cell(Apply(s, m), p) == Cell(s, p)
  {
    if m.letter == Letter.U || m.letter == Letter.D || m.letter == Letter.E {
      VerticalLeavesOthers(s, m, p);
    } else if m.letter == Letter.L || m.letter == Letter.R || m.letter == Letter.M {
      SidewaysLeavesOthers(s, m, p);
    } else {
      FrontalLeavesOthers(s, m, p);
    }
  }

  /** The layers that turn about the vertical axis through U and D. */
  lemma VerticalLeavesOthers(s: Cube, m: Move, p: Pos)
    requires (m.letter == Letter.U || m.letter == Letter.D || m.letter == Letter.E) && !InLayer(m.letter, p)
    ensures Cell(Apply(s, m), p) == Cell(s, p)
  {
    if m.letter == Letter.U {
      ApplyOfU(s, m); FrameU(s, p);
    } else if m.letter == Letter.D {
      ApplyOfD(s, m); FrameD(s, p);
    } else {
      ApplyOfE(s, m); FrameE(s, p);
    }
  }

  /** The layers that turn about the axis through L and R. */
  lemma SidewaysLeavesOthers(s: Cube, m: Move, p: Pos)
    requires (m.letter == Letter.L || m.letter == Letter.R || m.letter == Letter.M) && !InLayer(m.letter, p)
    ensures Cell(Apply(s, m), p) == Cell(s, p)
  {
    if m.letter == Letter.L {
      ApplyOfL(s, m); FrameL(s, p);
    } else if m.letter == Letter.R {
      ApplyOfR(s, m); FrameR(s, p);
    } else {
      ApplyOfM(s, m); FrameM(s, p);
    }
  }

  /** The layers that turn about the axis through F and B. */
  lemma FrontalLeavesOthers(s: Cube, m: Move, p: Pos)
    requires (m.letter == Letter.F || m.letter == Letter.B || m.letter == Letter.S) && !InLayer(m.letter, p)
    ensures Cell(Apply(s, m), p) == Cell(s, p)
  {
    if m.letter == Letter.F {
      ApplyOfF(s, m); FrameF(s, p);
    } else if m.letter == Letter.B {
      ApplyOfB(s, m); FrameB(s, p);
    } else {
      ApplyOfS(s, m); FrameS(s, p);
    }
  }

  /** A formula none of whose layers holds `p` leaves the sticker at `p` in place. */
  lemma {:induction false} ApplyMovesLeaveOthers(s: Cube, ms: seq<Move>, p: Pos)
    requires forall i :: 0 <= i < |ms| ==> !InLayer(ms[i].letter, p)
    ensures Cell(ApplyMoves(s, ms), p) == Cell(s, p)
    decreases |ms|
  {
    if ms != [] {
      ApplyLeavesOthers(s, ms[0], p);
      ApplyMovesLeaveOthers(Apply(s, ms[0]), ms[1..], p);
    }
  }

  // ---------------------------------------------------------------------------
  // Centres

  /** A centre sticker's position. */
  function Centre(f: FaceName): Pos {
    Pos(f, 1, 1)
  }

  lemma CentresU(s: Cube, f: FaceName)
    ensures Cell(TurnU(s), Centre(f)).color == Cell(s, Centre(f)).color
    ensures Cell(TurnUPrime(s), Centre(f)).color == Cell(s, Centre(f)).color
  {
  }

  lemma CentresD(s: Cube, f: FaceName)
    ensures Cell(TurnD(s), Centre(f)).color == Cell(s, Centre(f)).color
    ensures Cell(TurnDPrime(s), Centre(f)).color == Cell(s, Centre(f)).color
  {
  }

  lemma CentresL(s: Cube, f: FaceName)
    ensures Cell(TurnL(s), Centre(f)).color == Cell(s, Centre(f)).color
    ensures Cell(TurnLPrime(s), Centre(f)).color == Cell(s, Centre(f)).color
  {
  }

  lemma CentresR(s: Cube, f: FaceName)
    ensures Cell(TurnR(s), Centre(f)).color == Cell(s, Centre(f)).color
    ensures Cell(TurnRPrime(s), Centre(f)).color == Cell(s, Centre(f)).color
  {
  }

  lemma CentresF(s: Cube, f: FaceName)
    ensures Cell(TurnF(s), Centre(f)).color == Cell(s, Centre(f)).color
    ensures Cell(TurnFPrime(s), Centre(f)).color == Cell(s, Centre(f)).color
  {
  }

  lemma CentresB(s: Cube, f: FaceName)
    ensures Cell(TurnB(s), Centre(f)).color == Cell(s, Centre(f)).color
    ensures Cell(TurnBPrime(s), Centre(f)).color == Cell(s, Centre(f)).color
  {
  }

  /** A face turn never changes the colour at the centre of any face: its own centre
      only turns in place, and the other centres lie outside its layer. */
  lemma FaceTurnKeepsCentres(s: Cube, m: Move, f: FaceName)
    requires m.letter in {Letter.U, Letter.D, Letter.L, Letter.R, Letter.F, Letter.B}
    ensures Cell(Apply(s, m), Centre(f)).color == Cell(s, Centre(f)).color
  {
    if m.letter == Letter.U {
      ApplyOfU(s, m); CentresU(s, f);
    } else if m.letter == Letter.D {
      ApplyOfD(s, m); CentresD(s, f);
    } else if m.letter == Letter.L {
      ApplyOfL(s, m); CentresL(s, f);
    } else if m.letter == Letter.R {
      ApplyOfR(s, m); CentresR(s, f);
    } else if m.letter == Letter.F {
      ApplyOfF(s, m); CentresF(s, f);
    } else {
      ApplyOfB(s, m); CentresB(s, f);
    }
  }
}
