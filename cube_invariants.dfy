/** What every move keeps: glyph angles stay in [0, 360) (at quarter angles when they
    start there), and the number of stickers of each colour is conserved. */
module CubeInvariants {
  import opened Types
  import opened CubeLogic
  import opened CubeProperties

  // ---------------------------------------------------------------------------
  // Glyph angles

  lemma AnglesU(s: Cube)
    requires NormalCube(s)
    ensures NormalCube(TurnU(s)) && NormalCube(TurnUPrime(s))
    ensures QuarterCube(s) ==> QuarterCube(TurnU(s)) && QuarterCube(TurnUPrime(s))
  {
    if QuarterCube(s) {
      RotateFaceQuarter(s.U, true);
      RotateFaceQuarter(s.U, false);
    }
  }

  lemma AnglesD(s: Cube)
    requires NormalCube(s)
    ensures NormalCube(TurnD(s)) && NormalCube(TurnDPrime(s))
    ensures QuarterCube(s) ==> QuarterCube(TurnD(s)) && QuarterCube(TurnDPrime(s))
  {
    if QuarterCube(s) {
      RotateFaceQuarter(s.D, true);
      RotateFaceQuarter(s.D, false);
    }
  }

  lemma AnglesL(s: Cube)
    requires NormalCube(s)
    ensures NormalCube(TurnL(s)) && NormalCube(TurnLPrime(s))
    ensures QuarterCube(s) ==> QuarterCube(TurnL(s)) && QuarterCube(TurnLPrime(s))
  {
    if QuarterCube(s) {
      RotateFaceQuarter(s.L, true);
      RotateFaceQuarter(s.L, false);
    }
  }

  lemma AnglesR(s: Cube)
    requires NormalCube(s)
    ensures NormalCube(TurnR(s)) && NormalCube(TurnRPrime(s))
    ensures QuarterCube(s) ==> QuarterCube(TurnR(s)) && QuarterCube(TurnRPrime(s))
  {
    if QuarterCube(s) {
      RotateFaceQuarter(s.R, true);
      RotateFaceQuarter(s.R, false);
    }
  }

  lemma AnglesF(s: Cube)
    requires NormalCube(s)
    ensures NormalCube(TurnF(s)) && NormalCube(TurnFPrime(s))
    ensures QuarterCube(s) ==> QuarterCube(TurnF(s)) && QuarterCube(TurnFPrime(s))
  {
    if QuarterCube(s) {
      RotateFaceQuarter(s.F, true);
      TurnRowQuarter(s.L.Col(2).Reversed(), 90);
      TurnRowQuarter(s.D.GetRow(0), 90);
      TurnRowQuarter(s.R.Col(0).Reversed(), 90);
      TurnRowQuarter(s.U.GetRow(2), 90);
      RotateFaceQuarter(s.F, false);
      TurnRowQuarter(s.R.Col(0), -90);
      TurnRowQuarter(s.D.GetRow(0).Reversed(), -90);
      TurnRowQuarter(s.L.Col(2), -90);
      TurnRowQuarter(s.U.GetRow(2).Reversed(), -90);
    }
  }

  lemma AnglesB(s: Cube)
    requires NormalCube(s)
    ensures NormalCube(TurnB(s)) && NormalCube(TurnBPrime(s))
    ensures QuarterCube(s) ==> QuarterCube(TurnB(s)) && QuarterCube(TurnBPrime(s))
  {
    if QuarterCube(s) {
      RotateFaceQuarter(s.B, true);
      TurnRowQuarter(s.R.Col(2), -90);
      TurnRowQuarter(s.D.GetRow(2).Reversed(), -90);
      TurnRowQuarter(s.L.Col(0), -90);
      TurnRowQuarter(s.U.GetRow(0).Reversed(), -90);
      RotateFaceQuarter(s.B, false);
      TurnRowQuarter(s.L.Col(0).Reversed(), 90);
      TurnRowQuarter(s.D.GetRow(2), 90);
      TurnRowQuarter(s.R.Col(2).Reversed(), 90);
      TurnRowQuarter(s.U.GetRow(0), 90);
    }
  }

  lemma AnglesE(s: Cube)
    requires NormalCube(s)
    ensures NormalCube(TurnE(s)) && NormalCube(TurnEPrime(s))
    ensures QuarterCube(s) ==> QuarterCube(TurnE(s)) && QuarterCube(TurnEPrime(s))
  {
  }

  lemma AnglesM(s: Cube)
    requires NormalCube(s)
    ensures NormalCube(TurnM(s)) && NormalCube(TurnMPrime(s))
    ensures QuarterCube(s) ==> QuarterCube(TurnM(s)) && QuarterCube(TurnMPrime(s))
  {
  }

  lemma AnglesS(s: Cube)
    requires NormalCube(s)
    ensures NormalCube(TurnS(s)) && NormalCube(TurnSPrime(s))
    ensures QuarterCube(s) ==> QuarterCube(TurnS(s)) && QuarterCube(TurnSPrime(s))
  {
    if QuarterCube(s) {
      TurnRowQuarter(s.L.Col(1).Reversed(), 90);
      TurnRowQuarter(s.D.GetRow(1), 90);
      TurnRowQuarter(s.R.Col(1).Reversed(), 90);
      TurnRowQuarter(s.U.GetRow(1), 90);
      TurnRowQuarter(s.R.Col(1), -90);
      TurnRowQuarter(s.D.GetRow(1).Reversed(), -90);
      TurnRowQuarter(s.L.Col(1), -90);
      TurnRowQuarter(s.U.GetRow(1).Reversed(), -90);
    }
  }

  /** Every move keeps glyph angles in [0, 360), and keeps them at quarter angles when
      they start there. */
  lemma ApplyKeepsAngles(s: Cube, m: Move)
    requires NormalCube(s)
    ensures NormalCube(Apply(s, m))
    ensures QuarterCube(s) ==> QuarterCube(Apply(s, m))
  {
    if m.IsWholeCube() {
      WholeCubeKeepsAngles(s, m);
    } else {
      LayerTurnKeepsAngles(s, m);
    }
  }

  lemma LayerTurnKeepsAngles(s: Cube, m: Move)
    requires NormalCube(s) && !m.IsWholeCube()
    ensures NormalCube(Apply(s, m))
    ensures QuarterCube(s) ==> QuarterCube(Apply(s, m))
  {
    if m.letter == Letter.U || m.letter == Letter.D || m.letter == Letter.E {
      VerticalLayerTurnKeepsAngles(s, m);
    } else if m.letter == Letter.L || m.letter == Letter.R || m.letter == Letter.M {
      SidewaysLayerTurnKeepsAngles(s, m);
    } else {
      FrontalLayerTurnKeepsAngles(s, m);
    }
  }

  /** The layers that turn about the vertical axis through U and D. */
  lemma VerticalLayerTurnKeepsAngles(s: Cube, m: Move)
    requires NormalCube(s) && (m.letter == Letter.U || m.letter == Letter.D || m.letter == Letter.E)
    ensures NormalCube(Apply(s, m))
    ensures QuarterCube(s) ==> QuarterCube(Apply(s, m))
  {
    if m.letter == Letter.U {
      ApplyOfU(s, m); AnglesU(s);
    } else if m.letter == Letter.D {
      ApplyOfD(s, m); AnglesD(s);
    } else {
      ApplyOfE(s, m); AnglesE(s);
    }
  }

  /** The layers that turn about the axis through L and R. */
  lemma SidewaysLayerTurnKeepsAngles(s: Cube, m: Move)
    requires NormalCube(s) && (m.letter == Letter.L || m.letter == Letter.R || m.letter == Letter.M)
    ensures NormalCube(Apply(s, m))
    ensures QuarterCube(s) ==> QuarterCube(Apply(s, m))
  {
    if m.letter == Letter.L {
      ApplyOfL(s, m); AnglesL(s);
    } else if m.letter == Letter.R {
      ApplyOfR(s, m); AnglesR(s);
    } else {
      ApplyOfM(s, m); AnglesM(s);
    }
  }

  /** The layers that turn about the axis through F and B. */
  lemma FrontalLayerTurnKeepsAngles(s: Cube, m: Move)
    requires NormalCube(s) && (m.letter == Letter.F || m.letter == Letter.B || m.letter == Letter.S)
    ensures NormalCube(Apply(s, m))
    ensures QuarterCube(s) ==> QuarterCube(Apply(s, m))
  {
    if m.letter == Letter.F {
      ApplyOfF(s, m); AnglesF(s);
    } else if m.letter == Letter.B {
      ApplyOfB(s, m); AnglesB(s);
    } else {
      ApplyOfS(s, m); AnglesS(s);
    }
  }

  lemma WholeCubeKeepsAngles(s: Cube, m: Move)
    requires NormalCube(s) && m.IsWholeCube()
    ensures NormalCube(Apply(s, m))
    ensures QuarterCube(s) ==> QuarterCube(Apply(s, m))
  {
    if m.letter == Letter.z {
      WholeCubeZKeepsAngles(s, m);
    } else if m.letter == Letter.y {
      WholeCubeYKeepsAngles(s, m);
    } else {
      WholeCubeXKeepsAngles(s, m);
    }
  }

  lemma ZFormulaKeepsAngles(s: Cube)
    requires NormalCube(s)
    ensures NormalCube(ApplyMoves(s, [Move(Letter.U, Plain), Move(Letter.E, Prime), Move(Letter.D, Prime)]))
    ensures QuarterCube(s) ==> QuarterCube(ApplyMoves(s, [Move(Letter.U, Plain), Move(Letter.E, Prime), Move(Letter.D, Prime)]))
  {
    LayerTurnsKeepAngles(s, [Move(Letter.U, Plain), Move(Letter.E, Prime), Move(Letter.D, Prime)]);
  }

  lemma ZPrimeFormulaKeepsAngles(s: Cube)
    requires NormalCube(s)
    ensures NormalCube(ApplyMoves(s, [Move(Letter.U, Prime), Move(Letter.E, Plain), Move(Letter.D, Plain)]))
    ensures QuarterCube(s) ==> QuarterCube(ApplyMoves(s, [Move(Letter.U, Prime), Move(Letter.E, Plain), Move(Letter.D, Plain)]))
  {
    LayerTurnsKeepAngles(s, [Move(Letter.U, Prime), Move(Letter.E, Plain), Move(Letter.D, Plain)]);
  }

  lemma WholeCubeZKeepsAngles(s: Cube, m: Move)
    requires NormalCube(s) && m.letter == Letter.z
    ensures NormalCube(Apply(s, m))
    ensures QuarterCube(s) ==> QuarterCube(Apply(s, m))
  {
    ApplyOfZ(s, m);
    ZFormulaKeepsAngles(s);
    ZPrimeFormulaKeepsAngles(s);
  }

  lemma YFormulaKeepsAngles(s: Cube)
    requires NormalCube(s)
    ensures NormalCube(ApplyMoves(s, [Move(Letter.R, Plain), Move(Letter.M, Prime), Move(Letter.L, Prime)]))
    ensures QuarterCube(s) ==> QuarterCube(ApplyMoves(s, [Move(Letter.R, Plain), Move(Letter.M, Prime), Move(Letter.L, Prime)]))
  {
    LayerTurnsKeepAngles(s, [Move(Letter.R, Plain), Move(Letter.M, Prime), Move(Letter.L, Prime)]);
  }

  lemma YPrimeFormulaKeepsAngles(s: Cube)
    requires NormalCube(s)
    ensures NormalCube(ApplyMoves(s, [Move(Letter.R, Prime), Move(Letter.M, Plain), Move(Letter.L, Plain)]))
    ensures QuarterCube(s) ==> QuarterCube(ApplyMoves(s, [Move(Letter.R, Prime), Move(Letter.M, Plain), Move(Letter.L, Plain)]))
  {
    LayerTurnsKeepAngles(s, [Move(Letter.R, Prime), Move(Letter.M, Plain), Move(Letter.L, Plain)]);
  }

  lemma WholeCubeYKeepsAngles(s: Cube, m: Move)
    requires NormalCube(s) && m.letter == Letter.y
    ensures NormalCube(Apply(s, m))
    ensures QuarterCube(s) ==> QuarterCube(Apply(s, m))
  {
    ApplyOfY(s, m);
    YFormulaKeepsAngles(s);
    YPrimeFormulaKeepsAngles(s);
  }

  lemma XFormulaKeepsAngles(s: Cube)
    requires NormalCube(s)
    ensures NormalCube(ApplyMoves(s, [Move(Letter.F, Plain), Move(Letter.S, Plain), Move(Letter.B, Prime)]))
    ensures QuarterCube(s) ==> QuarterCube(ApplyMoves(s, [Move(Letter.F, Plain), Move(Letter.S, Plain), Move(Letter.B, Prime)]))
  {
    LayerTurnsKeepAngles(s, [Move(Letter.F, Plain), Move(Letter.S, Plain), Move(Letter.B, Prime)]);
  }

  lemma XPrimeFormulaKeepsAngles(s: Cube)
    requires NormalCube(s)
    ensures NormalCube(ApplyMoves(s, [Move(Letter.F, Prime), Move(Letter.S, Prime), Move(Letter.B, Plain)]))
    ensures QuarterCube(s) ==> QuarterCube(ApplyMoves(s, [Move(Letter.F, Prime), Move(Letter.S, Prime), Move(Letter.B, Plain)]))
  {
    LayerTurnsKeepAngles(s, [Move(Letter.F, Prime), Move(Letter.S, Prime), Move(Letter.B, Plain)]);
  }

  lemma WholeCubeXKeepsAngles(s: Cube, m: Move)
    requires NormalCube(s) && m.letter == Letter.x
    ensures NormalCube(Apply(s, m))
    ensures QuarterCube(s) ==> QuarterCube(Apply(s, m))
  {
    ApplyOfX(s, m);
    XFormulaKeepsAngles(s);
    XPrimeFormulaKeepsAngles(s);
  }

  /** A formula of face and slice turns keeps the angles; the whole-cube turns are such
      formulas. */
  lemma {:induction false} LayerTurnsKeepAngles(s: Cube, ms: seq<Move>)
    requires NormalCube(s)
    requires forall i :: 0 <= i < |ms| ==> !ms[i].IsWholeCube()
    ensures NormalCube(ApplyMoves(s, ms))
    ensures QuarterCube(s) ==> QuarterCube(ApplyMoves(s, ms))
    decreases |ms|
  {
    if ms != [] {
      LayerTurnKeepsAngles(s, ms[0]);
      LayerTurnsKeepAngles(Apply(s, ms[0]), ms[1..]);
    }
  }

  /** Every formula keeps the angles. */
  lemma {:induction false} ApplyMovesKeepAngles(s: Cube, ms: seq<Move>)
    requires NormalCube(s)
    ensures NormalCube(ApplyMoves(s, ms))
    ensures QuarterCube(s) ==> QuarterCube(ApplyMoves(s, ms))
    decreases |ms|
  {
    if ms != [] {
      ApplyKeepsAngles(s, ms[0]);
      ApplyMovesKeepAngles(Apply(s, ms[0]), ms[1..]);
    }
  }

  // ---------------------------------------------------------------------------
  // Colour counts

  /** 1 when the sticker shows colour `c`, else 0. */
  function Ind(st: Sticker, c: Color): nat {
    if st.color == c then 1 else 0
  }

  function RowCount(row: Row, c: Color): nat {
    Ind(row.c0, c) + Ind(row.c1, c) + Ind(row.c2, c)
  }

  function FaceCount(f: Face, c: Color): nat {
    RowCount(f.r0, c) + RowCount(f.r1, c) + RowCount(f.r2, c)
  }

  /** How many of the 54 stickers show colour `c`. */
  function Count(s: Cube, c: Color): nat {
    FaceCount(s.U, c) + FaceCount(s.D, c) + FaceCount(s.L, c) + FaceCount(s.R, c) + FaceCount(s.F, c) + FaceCount(s.B, c)
  }

  lemma RowCountTurned(row: Row, degrees: int, c: Color)
    ensures RowCount(TurnRow(row, degrees), c) == RowCount(row, c)
  {
  }

  lemma RowCountReversed(row: Row, c: Color)
    ensures RowCount(row.Reversed(), c) == RowCount(row, c)
  {
  }

  /** Turning the plate moves its stickers around without changing their colours. */
  lemma RotateFaceCount(f: Face, clockwise: bool, c: Color)
    ensures FaceCount(RotateFace(f, clockwise), c) == FaceCount(f, c)
  {
  }

  /** Replacing a row trades the old row's stickers for the new one's. */
  lemma WithRowCount(f: Face, r: Idx, row: Row, c: Color)
    ensures FaceCount(f.WithRow(r, row), c) == FaceCount(f, c) - RowCount(f.GetRow(r), c) + RowCount(row, c)
  {
    if r == 0 {
    } else if r == 1 {
    } else {
    }
  }

  /** Replacing one sticker of a row trades its colour for the new one's. */
  lemma WithAtCount(row: Row, k: Idx, x: Sticker, c: Color)
    ensures RowCount(WithAt(row, k, x), c) == RowCount(row, c) - Ind(row.At(k), c) + Ind(x, c)
  {
  }

  /** Replacing a column trades the old column's stickers for the new one's. */
  lemma WithColCount(f: Face, k: Idx, col: Row, c: Color)
    ensures FaceCount(f.WithCol(k, col), c) == FaceCount(f, c) - RowCount(f.Col(k), c) + RowCount(col, c)
  {
    WithAtCount(f.r0, k, col.c0, c);
    WithAtCount(f.r1, k, col.c1, c);
    WithAtCount(f.r2, k, col.c2, c);
  }

  lemma ColoursU(s: Cube, c: Color)
    ensures Count(TurnU(s), c) == Count(s, c)
  {
    RotateFaceCount(s.U, true, c);
    WithRowCount(s.F, 0, s.R.GetRow(0), c);
    WithRowCount(s.R, 0, s.B.GetRow(0), c);
    WithRowCount(s.B, 0, s.L.GetRow(0), c);
    WithRowCount(s.L, 0, s.F.GetRow(0), c);
  }

  lemma ColoursUPrime(s: Cube, c: Color)
    ensures Count(TurnUPrime(s), c) == Count(s, c)
  {
    RotateFaceCount(s.U, false, c);
    WithRowCount(s.F, 0, s.L.GetRow(0), c);
    WithRowCount(s.R, 0, s.F.GetRow(0), c);
    WithRowCount(s.B, 0, s.R.GetRow(0), c);
    WithRowCount(s.L, 0, s.B.GetRow(0), c);
  }

  lemma ColoursD(s: Cube, c: Color)
    ensures Count(TurnD(s), c) == Count(s, c)
  {
    RotateFaceCount(s.D, true, c);
    WithRowCount(s.F, 2, s.L.GetRow(2), c);
    WithRowCount(s.L, 2, s.B.GetRow(2), c);
    WithRowCount(s.B, 2, s.R.GetRow(2), c);
    WithRowCount(s.R, 2, s.F.GetRow(2), c);
  }

  lemma ColoursDPrime(s: Cube, c: Color)
    ensures Count(TurnDPrime(s), c) == Count(s, c)
  {
    RotateFaceCount(s.D, false, c);
    WithRowCount(s.F, 2, s.R.GetRow(2), c);
    WithRowCount(s.R, 2, s.B.GetRow(2), c);
    WithRowCount(s.B, 2, s.L.GetRow(2), c);
    WithRowCount(s.L, 2, s.F.GetRow(2), c);
  }

  lemma ColoursL(s: Cube, c: Color)
    ensures Count(TurnL(s), c) == Count(s, c)
  {
    RotateFaceCount(s.L, true, c);
    WithColCount(s.U, 0, s.B.Col(2).Reversed(), c);
    RowCountReversed(s.B.Col(2), c);
    WithColCount(s.B, 2, s.D.Col(0).Reversed(), c);
    RowCountReversed(s.D.Col(0), c);
    WithColCount(s.D, 0, s.F.Col(0), c);
    WithColCount(s.F, 0, s.U.Col(0), c);
  }

  lemma ColoursLPrime(s: Cube, c: Color)
    ensures Count(TurnLPrime(s), c) == Count(s, c)
  {
    RotateFaceCount(s.L, false, c);
    WithColCount(s.U, 0, s.F.Col(0), c);
    WithColCount(s.F, 0, s.D.Col(0), c);
    WithColCount(s.D, 0, s.B.Col(2).Reversed(), c);
    RowCountReversed(s.B.Col(2), c);
    WithColCount(s.B, 2, s.U.Col(0).Reversed(), c);
    RowCountReversed(s.U.Col(0), c);
  }

  lemma ColoursR(s: Cube, c: Color)
    ensures Count(TurnR(s), c) == Count(s, c)
  {
    RotateFaceCount(s.R, true, c);
    WithColCount(s.U, 2, s.F.Col(2), c);
    WithColCount(s.F, 2, s.D.Col(2), c);
    WithColCount(s.D, 2, s.B.Col(0).Reversed(), c);
    RowCountReversed(s.B.Col(0), c);
    WithColCount(s.B, 0, s.U.Col(2).Reversed(), c);
    RowCountReversed(s.U.Col(2), c);
  }

  lemma ColoursRPrime(s: Cube, c: Color)
    ensures Count(TurnRPrime(s), c) == Count(s, c)
  {
    RotateFaceCount(s.R, false, c);
    WithColCount(s.U, 2, s.B.Col(0).Reversed(), c);
    RowCountReversed(s.B.Col(0), c);
    WithColCount(s.B, 0, s.D.Col(2).Reversed(), c);
    RowCountReversed(s.D.Col(2), c);
    WithColCount(s.D, 2, s.F.Col(2), c);
    WithColCount(s.F, 2, s.U.Col(2), c);
  }

  lemma ColoursF(s: Cube, c: Color)
    ensures Count(TurnF(s), c) == Count(s, c)
  {
    RotateFaceCount(s.F, true, c);
    WithRowCount(s.U, 2, TurnRow(s.L.Col(2).Reversed(), 90), c);
    RowCountTurned(s.L.Col(2).Reversed(), 90, c);
    RowCountReversed(s.L.Col(2), c);
    WithColCount(s.L, 2, TurnRow(s.D.GetRow(0), 90), c);
    RowCountTurned(s.D.GetRow(0), 90, c);
    WithRowCount(s.D, 0, TurnRow(s.R.Col(0).Reversed(), 90), c);
    RowCountTurned(s.R.Col(0).Reversed(), 90, c);
    RowCountReversed(s.R.Col(0), c);
    WithColCount(s.R, 0, TurnRow(s.U.GetRow(2), 90), c);
    RowCountTurned(s.U.GetRow(2), 90, c);
  }

  lemma ColoursFPrime(s: Cube, c: Color)
    ensures Count(TurnFPrime(s), c) == Count(s, c)
  {
    RotateFaceCount(s.F, false, c);
    WithRowCount(s.U, 2, TurnRow(s.R.Col(0), -90), c);
    RowCountTurned(s.R.Col(0), -90, c);
    WithColCount(s.R, 0, TurnRow(s.D.GetRow(0).Reversed(), -90), c);
    RowCountTurned(s.D.GetRow(0).Reversed(), -90, c);
    RowCountReversed(s.D.GetRow(0), c);
    WithRowCount(s.D, 0, TurnRow(s.L.Col(2), -90), c);
    RowCountTurned(s.L.Col(2), -90, c);
    WithColCount(s.L, 2, TurnRow(s.U.GetRow(2).Reversed(), -90), c);
    RowCountTurned(s.U.GetRow(2).Reversed(), -90, c);
    RowCountReversed(s.U.GetRow(2), c);
  }

  lemma ColoursB(s: Cube, c: Color)
    ensures Count(TurnB(s), c) == Count(s, c)
  {
    RotateFaceCount(s.B, true, c);
    WithRowCount(s.U, 0, TurnRow(s.R.Col(2), -90), c);
    RowCountTurned(s.R.Col(2), -90, c);
    WithColCount(s.R, 2, TurnRow(s.D.GetRow(2).Reversed(), -90), c);
    RowCountTurned(s.D.GetRow(2).Reversed(), -90, c);
    RowCountReversed(s.D.GetRow(2), c);
    WithRowCount(s.D, 2, TurnRow(s.L.Col(0), -90), c);
    RowCountTurned(s.L.Col(0), -90, c);
    WithColCount(s.L, 0, TurnRow(s.U.GetRow(0).Reversed(), -90), c);
    RowCountTurned(s.U.GetRow(0).Reversed(), -90, c);
    RowCountReversed(s.U.GetRow(0), c);
  }

  lemma ColoursBPrime(s: Cube, c: Color)
    ensures Count(TurnBPrime(s), c) == Count(s, c)
  {
    RotateFaceCount(s.B, false, c);
    WithRowCount(s.U, 0, TurnRow(s.L.Col(0).Reversed(), 90), c);
    RowCountTurned(s.L.Col(0).Reversed(), 90, c);
    RowCountReversed(s.L.Col(0), c);
    WithColCount(s.L, 0, TurnRow(s.D.GetRow(2), 90), c);
    RowCountTurned(s.D.GetRow(2), 90, c);
    WithRowCount(s.D, 2, TurnRow(s.R.Col(2).Reversed(), 90), c);
    RowCountTurned(s.R.Col(2).Reversed(), 90, c);
    RowCountReversed(s.R.Col(2), c);
    WithColCount(s.R, 2, TurnRow(s.U.GetRow(0), 90), c);
    RowCountTurned(s.U.GetRow(0), 90, c);
  }

  lemma ColoursE(s: Cube, c: Color)
    ensures Count(TurnE(s), c) == Count(s, c)
  {
    WithRowCount(s.F, 1, s.L.GetRow(1), c);
    WithRowCount(s.R, 1, s.F.GetRow(1), c);
    WithRowCount(s.B, 1, s.R.GetRow(1), c);
    WithRowCount(s.L, 1, s.B.GetRow(1), c);
  }

  lemma ColoursEPrime(s: Cube, c: Color)
    ensures Count(TurnEPrime(s), c) == Count(s, c)
  {
    WithRowCount(s.F, 1, s.R.GetRow(1), c);
    WithRowCount(s.R, 1, s.B.GetRow(1), c);
    WithRowCount(s.B, 1, s.L.GetRow(1), c);
    WithRowCount(s.L, 1, s.F.GetRow(1), c);
  }

  lemma ColoursM(s: Cube, c: Color)
    ensures Count(TurnM(s), c) == Count(s, c)
  {
    WithColCount(s.U, 1, s.B.Col(1).Reversed(), c);
    RowCountReversed(s.B.Col(1), c);
    WithColCount(s.B, 1, s.D.Col(1).Reversed(), c);
    RowCountReversed(s.D.Col(1), c);
    WithColCount(s.D, 1, s.F.Col(1), c);
    WithColCount(s.F, 1, s.U.Col(1), c);
  }

  lemma ColoursMPrime(s: Cube, c: Color)
    ensures Count(TurnMPrime(s), c) == Count(s, c)
  {
    WithColCount(s.U, 1, s.F.Col(1), c);
    WithColCount(s.F, 1, s.D.Col(1), c);
    WithColCount(s.D, 1, s.B.Col(1).Reversed(), c);
    RowCountReversed(s.B.Col(1), c);
    WithColCount(s.B, 1, s.U.Col(1).Reversed(), c);
    RowCountReversed(s.U.Col(1), c);
  }

  lemma ColoursS(s: Cube, c: Color)
    ensures Count(TurnS(s), c) == Count(s, c)
  {
    WithRowCount(s.U, 1, TurnRow(s.L.Col(1).Reversed(), 90), c);
    RowCountTurned(s.L.Col(1).Reversed(), 90, c);
    RowCountReversed(s.L.Col(1), c);
    WithColCount(s.L, 1, TurnRow(s.D.GetRow(1), 90), c);
    RowCountTurned(s.D.GetRow(1), 90, c);
    WithRowCount(s.D, 1, TurnRow(s.R.Col(1).Reversed(), 90), c);
    RowCountTurned(s.R.Col(1).Reversed(), 90, c);
    RowCountReversed(s.R.Col(1), c);
    WithColCount(s.R, 1, TurnRow(s.U.GetRow(1), 90), c);
    RowCountTurned(s.U.GetRow(1), 90, c);
  }

  lemma ColoursSPrime(s: Cube, c: Color)
    ensures Count(TurnSPrime(s), c) == Count(s, c)
  {
    WithRowCount(s.U, 1, TurnRow(s.R.Col(1), -90), c);
    RowCountTurned(s.R.Col(1), -90, c);
    WithColCount(s.R, 1, TurnRow(s.D.GetRow(1).Reversed(), -90), c);
    RowCountTurned(s.D.GetRow(1).Reversed(), -90, c);
    RowCountReversed(s.D.GetRow(1), c);
    WithRowCount(s.D, 1, TurnRow(s.L.Col(1), -90), c);
    RowCountTurned(s.L.Col(1), -90, c);
    WithColCount(s.L, 1, TurnRow(s.U.GetRow(1).Reversed(), -90), c);
    RowCountTurned(s.U.GetRow(1).Reversed(), -90, c);
    RowCountReversed(s.U.GetRow(1), c);
  }

  /** No move adds or removes a colour: the stickers are only permuted. */
  lemma ApplyConservesColours(s: Cube, m: Move, c: Color)
    ensures Count(Apply(s, m), c) == Count(s, c)
  {
    if m.IsWholeCube() {
      WholeCubeConservesColours(s, m, c);
    } else {
      LayerTurnConservesColours(s, m, c);
    }
  }

  lemma LayerTurnConservesColours(s: Cube, m: Move, c: Color)
    requires !m.IsWholeCube()
    ensures Count(Apply(s, m), c) == Count(s, c)
  {
    if m.letter == Letter.U || m.letter == Letter.D || m.letter == Letter.E {
      VerticalLayerTurnConservesColours(s, m, c);
    } else if m.letter == Letter.L || m.letter == Letter.R || m.letter == Letter.M {
      SidewaysLayerTurnConservesColours(s, m, c);
    } else {
      FrontalLayerTurnConservesColours(s, m, c);
    }
  }

  /** The layers that turn about the vertical axis through U and D. */
  lemma VerticalLayerTurnConservesColours(s: Cube, m: Move, c: Color)
    requires (m.letter == Letter.U || m.letter == Letter.D || m.letter == Letter.E)
    ensures Count(Apply(s, m), c) == Count(s, c)
  {
    if m.letter == Letter.U {
      ApplyOfU(s, m); ColoursU(s, c); ColoursUPrime(s, c);
    } else if m.letter == Letter.D {
      ApplyOfD(s, m); ColoursD(s, c); ColoursDPrime(s, c);
    } else {
      ApplyOfE(s, m); ColoursE(s, c); ColoursEPrime(s, c);
    }
  }

  /** The layers that turn about the axis through L and R. */
  lemma SidewaysLayerTurnConservesColours(s: Cube, m: Move, c: Color)
    requires (m.letter == Letter.L || m.letter == Letter.R || m.letter == Letter.M)
    ensures Count(Apply(s, m), c) == Count(s, c)
  {
    if m.letter == Letter.L {
      ApplyOfL(s, m); ColoursL(s, c); ColoursLPrime(s, c);
    } else if m.letter == Letter.R {
      ApplyOfR(s, m); ColoursR(s, c); ColoursRPrime(s, c);
    } else {
      ApplyOfM(s, m); ColoursM(s, c); ColoursMPrime(s, c);
    }
  }

  /** The layers that turn about the axis through F and B. */
  lemma FrontalLayerTurnConservesColours(s: Cube, m: Move, c: Color)
    requires (m.letter == Letter.F || m.letter == Letter.B || m.letter == Letter.S)
    ensures Count(Apply(s, m), c) == Count(s, c)
  {
    if m.letter == Letter.F {
      ApplyOfF(s, m); ColoursF(s, c); ColoursFPrime(s, c);
    } else if m.letter == Letter.B {
      ApplyOfB(s, m); ColoursB(s, c); ColoursBPrime(s, c);
    } else {
      ApplyOfS(s, m); ColoursS(s, c); ColoursSPrime(s, c);
    }
  }

  lemma WholeCubeConservesColours(s: Cube, m: Move, c: Color)
    requires m.IsWholeCube()
    ensures Count(Apply(s, m), c) == Count(s, c)
  {
    if m.letter == Letter.z {
      WholeCubeZConservesColours(s, m, c);
    } else if m.letter == Letter.y {
      WholeCubeYConservesColours(s, m, c);
    } else {
      WholeCubeXConservesColours(s, m, c);
    }
  }

  lemma ZFormulaConservesColours(s: Cube, c: Color)
    ensures Count(ApplyMoves(s, [Move(Letter.U, Plain), Move(Letter.E, Prime), Move(Letter.D, Prime)]), c) == Count(s, c)
  {
    LayerTurnsConserveColours(s, [Move(Letter.U, Plain), Move(Letter.E, Prime), Move(Letter.D, Prime)], c);
  }

  lemma ZPrimeFormulaConservesColours(s: Cube, c: Color)
    ensures Count(ApplyMoves(s, [Move(Letter.U, Prime), Move(Letter.E, Plain), Move(Letter.D, Plain)]), c) == Count(s, c)
  {
    LayerTurnsConserveColours(s, [Move(Letter.U, Prime), Move(Letter.E, Plain), Move(Letter.D, Plain)], c);
  }

  lemma WholeCubeZConservesColours(s: Cube, m: Move, c: Color)
    requires m.letter == Letter.z
    ensures Count(Apply(s, m), c) == Count(s, c)
  {
    ApplyOfZ(s, m);
    ZFormulaConservesColours(s, c);
    ZPrimeFormulaConservesColours(s, c);
  }

  lemma YFormulaConservesColours(s: Cube, c: Color)
    ensures Count(ApplyMoves(s, [Move(Letter.R, Plain), Move(Letter.M, Prime), Move(Letter.L, Prime)]), c) == Count(s, c)
  {
    LayerTurnsConserveColours(s, [Move(Letter.R, Plain), Move(Letter.M, Prime), Move(Letter.L, Prime)], c);
  }

  lemma YPrimeFormulaConservesColours(s: Cube, c: Color)
    ensures Count(ApplyMoves(s, [Move(Letter.R, Prime), Move(Letter.M, Plain), Move(Letter.L, Plain)]), c) == Count(s, c)
  {
    LayerTurnsConserveColours(s, [Move(Letter.R, Prime), Move(Letter.M, Plain), Move(Letter.L, Plain)], c);
  }

  lemma WholeCubeYConservesColours(s: Cube, m: Move, c: Color)
    requires m.letter == Letter.y
    ensures Count(Apply(s, m), c) == Count(s, c)
  {
    ApplyOfY(s, m);
    YFormulaConservesColours(s, c);
    YPrimeFormulaConservesColours(s, c);
  }

  lemma XFormulaConservesColours(s: Cube, c: Color)
    ensures Count(ApplyMoves(s, [Move(Letter.F, Plain), Move(Letter.S, Plain), Move(Letter.B, Prime)]), c) == Count(s, c)
  {
    LayerTurnsConserveColours(s, [Move(Letter.F, Plain), Move(Letter.S, Plain), Move(Letter.B, Prime)], c);
  }

  lemma XPrimeFormulaConservesColours(s: Cube, c: Color)
    ensures Count(ApplyMoves(s, [Move(Letter.F, Prime), Move(Letter.S, Prime), Move(Letter.B, Plain)]), c) == Count(s, c)
  {
    LayerTurnsConserveColours(s, [Move(Letter.F, Prime), Move(Letter.S, Prime), Move(Letter.B, Plain)], c);
  }

  lemma WholeCubeXConservesColours(s: Cube, m: Move, c: Color)
    requires m.letter == Letter.x
    ensures Count(Apply(s, m), c) == Count(s, c)
  {
    ApplyOfX(s, m);
    XFormulaConservesColours(s, c);
    XPrimeFormulaConservesColours(s, c);
  }

  lemma {:induction false} LayerTurnsConserveColours(s: Cube, ms: seq<Move>, c: Color)
    requires forall i :: 0 <= i < |ms| ==> !ms[i].IsWholeCube()
    ensures Count(ApplyMoves(s, ms), c) == Count(s, c)
    decreases |ms|
  {
    if ms != [] {
      LayerTurnConservesColours(s, ms[0], c);
      LayerTurnsConserveColours(Apply(s, ms[0]), ms[1..], c);
    }
  }

  /** No formula adds or removes a colour. */
  lemma {:induction false} ApplyMovesConserveColours(s: Cube, ms: seq<Move>, c: Color)
    ensures Count(ApplyMoves(s, ms), c) == Count(s, c)
    decreases |ms|
  {
    if ms != [] {
      ApplyConservesColours(s, ms[0], c);
      ApplyMovesConserveColours(Apply(s, ms[0]), ms[1..], c);
    }
  }
}
