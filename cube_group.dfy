/** Group facts about the layer turns: every face and slice turn has order four, the
    turns of parallel layers commute, and a whole-cube turn is undone by its prime. */
module CubeGroup {
  import opened Types
  import opened CubeLogic
  import opened CubeProperties

  // ---------------------------------------------------------------------------
  // Order four: four quarter turns of one layer restore the state, glyphs included

  lemma OrderU(s: Cube)
    requires NormalCube(s)
    ensures TurnU(TurnU(TurnU(TurnU(s)))) == s
  {
    RotateFaceFour(s.U, true);
  }

  lemma OrderUPrime(s: Cube)
    requires NormalCube(s)
    ensures TurnUPrime(TurnUPrime(TurnUPrime(TurnUPrime(s)))) == s
  {
    RotateFaceFour(s.U, false);
  }

  lemma OrderD(s: Cube)
    requires NormalCube(s)
    ensures TurnD(TurnD(TurnD(TurnD(s)))) == s
  {
    RotateFaceFour(s.D, true);
  }

  lemma OrderDPrime(s: Cube)
    requires NormalCube(s)
    ensures TurnDPrime(TurnDPrime(TurnDPrime(TurnDPrime(s)))) == s
  {
    RotateFaceFour(s.D, false);
  }

  lemma OrderL(s: Cube)
    requires NormalCube(s)
    ensures TurnL(TurnL(TurnL(TurnL(s)))) == s
  {
    RotateFaceFour(s.L, true);
  }

  lemma OrderLPrime(s: Cube)
    requires NormalCube(s)
    ensures TurnLPrime(TurnLPrime(TurnLPrime(TurnLPrime(s)))) == s
  {
    RotateFaceFour(s.L, false);
  }

  lemma OrderR(s: Cube)
    requires NormalCube(s)
    ensures TurnR(TurnR(TurnR(TurnR(s)))) == s
  {
    RotateFaceFour(s.R, true);
  }

  lemma OrderRPrime(s: Cube)
    requires NormalCube(s)
    ensures TurnRPrime(TurnRPrime(TurnRPrime(TurnRPrime(s)))) == s
  {
    RotateFaceFour(s.R, false);
  }

  lemma OrderF(s: Cube)
    requires NormalCube(s)
    ensures TurnF(TurnF(TurnF(TurnF(s)))) == s
  {
    RotateFaceFour(s.F, true);
    RotateStickerFour(s.U.r2.c0, 90);
    RotateStickerFour(s.U.r2.c1, 90);
    RotateStickerFour(s.U.r2.c2, 90);
    RotateStickerFour(s.D.r0.c0, 90);
    RotateStickerFour(s.D.r0.c1, 90);
    RotateStickerFour(s.D.r0.c2, 90);
    RotateStickerFour(s.L.r0.c2, 90);
    RotateStickerFour(s.L.r1.c2, 90);
    RotateStickerFour(s.L.r2.c2, 90);
    RotateStickerFour(s.R.r0.c0, 90);
    RotateStickerFour(s.R.r1.c0, 90);
    RotateStickerFour(s.R.r2.c0, 90);
  }

  lemma OrderFPrime(s: Cube)
    requires NormalCube(s)
    ensures TurnFPrime(TurnFPrime(TurnFPrime(TurnFPrime(s)))) == s
  {
    RotateFaceFour(s.F, false);
    RotateStickerFour(s.U.r2.c0, -90);
    RotateStickerFour(s.U.r2.c1, -90);
    RotateStickerFour(s.U.r2.c2, -90);
    RotateStickerFour(s.D.r0.c0, -90);
    RotateStickerFour(s.D.r0.c1, -90);
    RotateStickerFour(s.D.r0.c2, -90);
    RotateStickerFour(s.L.r0.c2, -90);
    RotateStickerFour(s.L.r1.c2, -90);
    RotateStickerFour(s.L.r2.c2, -90);
    RotateStickerFour(s.R.r0.c0, -90);
    RotateStickerFour(s.R.r1.c0, -90);
    RotateStickerFour(s.R.r2.c0, -90);
  }

  lemma OrderB(s: Cube)
    requires NormalCube(s)
    ensures TurnB(TurnB(TurnB(TurnB(s)))) == s
  {
    RotateFaceFour(s.B, true);
    RotateStickerFour(s.U.r0.c0, -90);
    RotateStickerFour(s.U.r0.c1, -90);
    RotateStickerFour(s.U.r0.c2, -90);
    RotateStickerFour(s.D.r2.c0, -90);
    RotateStickerFour(s.D.r2.c1, -90);
    RotateStickerFour(s.D.r2.c2, -90);
    RotateStickerFour(s.L.r0.c0, -90);
    RotateStickerFour(s.L.r1.c0, -90);
    RotateStickerFour(s.L.r2.c0, -90);
    RotateStickerFour(s.R.r0.c2, -90);
    RotateStickerFour(s.R.r1.c2, -90);
    RotateStickerFour(s.R.r2.c2, -90);
  }

  lemma OrderBPrime(s: Cube)
    requires NormalCube(s)
    ensures TurnBPrime(TurnBPrime(TurnBPrime(TurnBPrime(s)))) == s
  {
    RotateFaceFour(s.B, false);
    RotateStickerFour(s.U.r0.c0, 90);
    RotateStickerFour(s.U.r0.c1, 90);
    RotateStickerFour(s.U.r0.c2, 90);
    RotateStickerFour(s.D.r2.c0, 90);
    RotateStickerFour(s.D.r2.c1, 90);
    RotateStickerFour(s.D.r2.c2, 90);
    RotateStickerFour(s.L.r0.c0, 90);
    RotateStickerFour(s.L.r1.c0, 90);
    RotateStickerFour(s.L.r2.c0, 90);
    RotateStickerFour(s.R.r0.c2, 90);
    RotateStickerFour(s.R.r1.c2, 90);
    RotateStickerFour(s.R.r2.c2, 90);
  }

  lemma OrderE(s: Cube)
    ensures TurnE(TurnE(TurnE(TurnE(s)))) == s
  {

  }

  lemma OrderEPrime(s: Cube)
    ensures TurnEPrime(TurnEPrime(TurnEPrime(TurnEPrime(s)))) == s
  {

  }

  lemma OrderM(s: Cube)
    ensures TurnM(TurnM(TurnM(TurnM(s)))) == s
  {

  }

  lemma OrderMPrime(s: Cube)
    ensures TurnMPrime(TurnMPrime(TurnMPrime(TurnMPrime(s)))) == s
  {

  }

  lemma OrderS(s: Cube)
    requires NormalCube(s)
    ensures TurnS(TurnS(TurnS(TurnS(s)))) == s
  {
    RotateStickerFour(s.U.r1.c0, 90);
    RotateStickerFour(s.U.r1.c1, 90);
    RotateStickerFour(s.U.r1.c2, 90);
    RotateStickerFour(s.D.r1.c0, 90);
    RotateStickerFour(s.D.r1.c1, 90);
    RotateStickerFour(s.D.r1.c2, 90);
    RotateStickerFour(s.L.r0.c1, 90);
    RotateStickerFour(s.L.r1.c1, 90);
    RotateStickerFour(s.L.r2.c1, 90);
    RotateStickerFour(s.R.r0.c1, 90);
    RotateStickerFour(s.R.r1.c1, 90);
    RotateStickerFour(s.R.r2.c1, 90);
  }

  lemma OrderSPrime(s: Cube)
    requires NormalCube(s)
    ensures TurnSPrime(TurnSPrime(TurnSPrime(TurnSPrime(s)))) == s
  {
    RotateStickerFour(s.U.r1.c0, -90);
    RotateStickerFour(s.U.r1.c1, -90);
    RotateStickerFour(s.U.r1.c2, -90);
    RotateStickerFour(s.D.r1.c0, -90);
    RotateStickerFour(s.D.r1.c1, -90);
    RotateStickerFour(s.D.r1.c2, -90);
    RotateStickerFour(s.L.r0.c1, -90);
    RotateStickerFour(s.L.r1.c1, -90);
    RotateStickerFour(s.L.r2.c1, -90);
    RotateStickerFour(s.R.r0.c1, -90);
    RotateStickerFour(s.R.r1.c1, -90);
    RotateStickerFour(s.R.r2.c1, -90);
  }

  /** Any move other than a whole-cube turn applied four times restores the state: a
      face or slice turn has order four, and a doubled symbol does nothing. */
  lemma ApplyFour(s: Cube, m: Move)
    requires !m.IsWholeCube() && NormalCube(s)
    ensures Apply(Apply(Apply(Apply(s, m), m), m), m) == s
  {
    if m.letter == Letter.U {
      FourU(s, m);
    } else if m.letter == Letter.D {
      FourD(s, m);
    } else if m.letter == Letter.L {
      FourL(s, m);
    } else if m.letter == Letter.R {
      FourR(s, m);
    } else if m.letter == Letter.F {
      FourF(s, m);
    } else if m.letter == Letter.B {
      FourB(s, m);
    } else if m.letter == Letter.E {
      FourE(s, m);
    } else if m.letter == Letter.M {
      FourM(s, m);
    } else {
      FourS(s, m);
    }
  }

  lemma FourU(s: Cube, m: Move)
    requires m.letter == Letter.U && NormalCube(s)
    ensures Apply(Apply(Apply(Apply(s, m), m), m), m) == s
  {
    ApplyOfU(s, m);
    ApplyOfU(Apply(s, m), m);
    ApplyOfU(Apply(Apply(s, m), m), m);
    ApplyOfU(Apply(Apply(Apply(s, m), m), m), m);
    OrderU(s);
    OrderUPrime(s);
  }

  lemma FourD(s: Cube, m: Move)
    requires m.letter == Letter.D && NormalCube(s)
    ensures Apply(Apply(Apply(Apply(s, m), m), m), m) == s
  {
    ApplyOfD(s, m);
    ApplyOfD(Apply(s, m), m);
    ApplyOfD(Apply(Apply(s, m), m), m);
    ApplyOfD(Apply(Apply(Apply(s, m), m), m), m);
    OrderD(s);
    OrderDPrime(s);
  }

  lemma FourL(s: Cube, m: Move)
    requires m.letter == Letter.L && NormalCube(s)
    ensures Apply(Apply(Apply(Apply(s, m), m), m), m) == s
  {
    ApplyOfL(s, m);
    ApplyOfL(Apply(s, m), m);
    ApplyOfL(Apply(Apply(s, m), m), m);
    ApplyOfL(Apply(Apply(Apply(s, m), m), m), m);
    OrderL(s);
    OrderLPrime(s);
  }

  lemma FourR(s: Cube, m: Move)
    requires m.letter == Letter.R && NormalCube(s)
    ensures Apply(Apply(Apply(Apply(s, m), m), m), m) == s
  {
    ApplyOfR(s, m);
    ApplyOfR(Apply(s, m), m);
    ApplyOfR(Apply(Apply(s, m), m), m);
    ApplyOfR(Apply(Apply(Apply(s, m), m), m), m);
    OrderR(s);
    OrderRPrime(s);
  }

  lemma FourF(s: Cube, m: Move)
    requires m.letter == Letter.F && NormalCube(s)
    ensures Apply(Apply(Apply(Apply(s, m), m), m), m) == s
  {
    ApplyOfF(s, m);
    ApplyOfF(Apply(s, m), m);
    ApplyOfF(Apply(Apply(s, m), m), m);
    ApplyOfF(Apply(Apply(Apply(s, m), m), m), m);
    OrderF(s);
    OrderFPrime(s);
  }

  lemma FourB(s: Cube, m: Move)
    requires m.letter == Letter.B && NormalCube(s)
    ensures Apply(Apply(Apply(Apply(s, m), m), m), m) == s
  {
    ApplyOfB(s, m);
    ApplyOfB(Apply(s, m), m);
    ApplyOfB(Apply(Apply(s, m), m), m);
    ApplyOfB(Apply(Apply(Apply(s, m), m), m), m);
    OrderB(s);
    OrderBPrime(s);
  }

  lemma FourE(s: Cube, m: Move)
    requires m.letter == Letter.E
    ensures Apply(Apply(Apply(Apply(s, m), m), m), m) == s
  {
    ApplyOfE(s, m);
    ApplyOfE(Apply(s, m), m);
    ApplyOfE(Apply(Apply(s, m), m), m);
    ApplyOfE(Apply(Apply(Apply(s, m), m), m), m);
    OrderE(s);
    OrderEPrime(s);
  }

  lemma FourM(s: Cube, m: Move)
    requires m.letter == Letter.M
    ensures Apply(Apply(Apply(Apply(s, m), m), m), m) == s
  {
    ApplyOfM(s, m);
    ApplyOfM(Apply(s, m), m);
    ApplyOfM(Apply(Apply(s, m), m), m);
    ApplyOfM(Apply(Apply(Apply(s, m), m), m), m);
    OrderM(s);
    OrderMPrime(s);
  }

  lemma FourS(s: Cube, m: Move)
    requires m.letter == Letter.S && NormalCube(s)
    ensures Apply(Apply(Apply(Apply(s, m), m), m), m) == s
  {
    ApplyOfS(s, m);
    ApplyOfS(Apply(s, m), m);
    ApplyOfS(Apply(Apply(s, m), m), m);
    ApplyOfS(Apply(Apply(Apply(s, m), m), m), m);
    OrderS(s);
    OrderSPrime(s);
  }

  // ---------------------------------------------------------------------------
  // Parallel layers commute: the turns touch disjoint strips, and a face plate never
  // lies in a parallel layer

  lemma CommuteUD(s: Cube)
    ensures TurnU(TurnD(s)) == TurnD(TurnU(s))
    ensures TurnU(TurnDPrime(s)) == TurnDPrime(TurnU(s))
    ensures TurnUPrime(TurnD(s)) == TurnD(TurnUPrime(s))
    ensures TurnUPrime(TurnDPrime(s)) == TurnDPrime(TurnUPrime(s))
  {
  }

  lemma CommuteUE(s: Cube)
    ensures TurnU(TurnE(s)) == TurnE(TurnU(s))
    ensures TurnU(TurnEPrime(s)) == TurnEPrime(TurnU(s))
    ensures TurnUPrime(TurnE(s)) == TurnE(TurnUPrime(s))
    ensures TurnUPrime(TurnEPrime(s)) == TurnEPrime(TurnUPrime(s))
  {
  }

  lemma CommuteDE(s: Cube)
    ensures TurnD(TurnE(s)) == TurnE(TurnD(s))
    ensures TurnD(TurnEPrime(s)) == TurnEPrime(TurnD(s))
    ensures TurnDPrime(TurnE(s)) == TurnE(TurnDPrime(s))
    ensures TurnDPrime(TurnEPrime(s)) == TurnEPrime(TurnDPrime(s))
  {
  }

  lemma CommuteLR(s: Cube)
    ensures TurnL(TurnR(s)) == TurnR(TurnL(s))
    ensures TurnL(TurnRPrime(s)) == TurnRPrime(TurnL(s))
    ensures TurnLPrime(TurnR(s)) == TurnR(TurnLPrime(s))
    ensures TurnLPrime(TurnRPrime(s)) == TurnRPrime(TurnLPrime(s))
  {
  }

  lemma CommuteLM(s: Cube)
    ensures TurnL(TurnM(s)) == TurnM(TurnL(s))
    ensures TurnL(TurnMPrime(s)) == TurnMPrime(TurnL(s))
    ensures TurnLPrime(TurnM(s)) == TurnM(TurnLPrime(s))
    ensures TurnLPrime(TurnMPrime(s)) == TurnMPrime(TurnLPrime(s))
  {
  }

  lemma CommuteRM(s: Cube)
    ensures TurnR(TurnM(s)) == TurnM(TurnR(s))
    ensures TurnR(TurnMPrime(s)) == TurnMPrime(TurnR(s))
    ensures TurnRPrime(TurnM(s)) == TurnM(TurnRPrime(s))
    ensures TurnRPrime(TurnMPrime(s)) == TurnMPrime(TurnRPrime(s))
  {
  }

  lemma CommuteFB(s: Cube)
    ensures TurnF(TurnB(s)) == TurnB(TurnF(s))
    ensures TurnF(TurnBPrime(s)) == TurnBPrime(TurnF(s))
    ensures TurnFPrime(TurnB(s)) == TurnB(TurnFPrime(s))
    ensures TurnFPrime(TurnBPrime(s)) == TurnBPrime(TurnFPrime(s))
  {
  }

  lemma CommuteFS(s: Cube)
    ensures TurnF(TurnS(s)) == TurnS(TurnF(s))
    ensures TurnF(TurnSPrime(s)) == TurnSPrime(TurnF(s))
    ensures TurnFPrime(TurnS(s)) == TurnS(TurnFPrime(s))
    ensures TurnFPrime(TurnSPrime(s)) == TurnSPrime(TurnFPrime(s))
  {
  }

  lemma CommuteBS(s: Cube)
    ensures TurnB(TurnS(s)) == TurnS(TurnB(s))
    ensures TurnB(TurnSPrime(s)) == TurnSPrime(TurnB(s))
    ensures TurnBPrime(TurnS(s)) == TurnS(TurnBPrime(s))
    ensures TurnBPrime(TurnSPrime(s)) == TurnSPrime(TurnBPrime(s))
  {
  }

  // ---------------------------------------------------------------------------
  // Whole-cube turns: each is three parallel layer turns, so its prime undoes it

  /** `z` as a composition of turns. */
  lemma ZFormulaTurns(s: Cube)
    ensures ApplyMoves(s, [Move(Letter.U, Plain), Move(Letter.E, Prime), Move(Letter.D, Prime)]) == TurnDPrime(TurnEPrime(TurnU(s)))
  {
  }

  /** `z'` as a composition of turns. */
  lemma ZPrimeFormulaTurns(s: Cube)
    ensures ApplyMoves(s, [Move(Letter.U, Prime), Move(Letter.E, Plain), Move(Letter.D, Plain)]) == TurnD(TurnE(TurnUPrime(s)))
  {
  }

  lemma ZTurnsUndone(s: Cube)
    requires NormalCube(s)
    ensures TurnD(TurnE(TurnUPrime(TurnDPrime(TurnEPrime(TurnU(s)))))) == s
  {
    CommuteUD(TurnEPrime(TurnU(s)));
    CommuteUE(TurnU(s));
    UndoU(s);
    CommuteDE(TurnEPrime(s));
    UndoEPrime(s);
    UndoDPrime(s);
  }

  lemma ZPrimeTurnsUndone(s: Cube)
    requires NormalCube(s)
    ensures TurnDPrime(TurnEPrime(TurnU(TurnD(TurnE(TurnUPrime(s)))))) == s
  {
    CommuteUD(TurnE(TurnUPrime(s)));
    CommuteUE(TurnUPrime(s));
    UndoUPrime(s);
    CommuteDE(TurnE(s));
    UndoE(s);
    UndoD(s);
  }

  /** `y` as a composition of turns. */
  lemma YFormulaTurns(s: Cube)
    ensures ApplyMoves(s, [Move(Letter.R, Plain), Move(Letter.M, Prime), Move(Letter.L, Prime)]) == TurnLPrime(TurnMPrime(TurnR(s)))
  {
  }

  /** `y'` as a composition of turns. */
  lemma YPrimeFormulaTurns(s: Cube)
    ensures ApplyMoves(s, [Move(Letter.R, Prime), Move(Letter.M, Plain), Move(Letter.L, Plain)]) == TurnL(TurnM(TurnRPrime(s)))
  {
  }

  lemma YTurnsUndone(s: Cube)
    requires NormalCube(s)
    ensures TurnL(TurnM(TurnRPrime(TurnLPrime(TurnMPrime(TurnR(s)))))) == s
  {
    CommuteLR(TurnMPrime(TurnR(s)));
    CommuteRM(TurnR(s));
    UndoR(s);
    CommuteLM(TurnMPrime(s));
    UndoMPrime(s);
    UndoLPrime(s);
  }

  lemma YPrimeTurnsUndone(s: Cube)
    requires NormalCube(s)
    ensures TurnLPrime(TurnMPrime(TurnR(TurnL(TurnM(TurnRPrime(s)))))) == s
  {
    CommuteLR(TurnM(TurnRPrime(s)));
    CommuteRM(TurnRPrime(s));
    UndoRPrime(s);
    CommuteLM(TurnM(s));
    UndoM(s);
    UndoL(s);
  }

  /** `x` as a composition of turns. */
  lemma XFormulaTurns(s: Cube)
    ensures ApplyMoves(s, [Move(Letter.F, Plain), Move(Letter.S, Plain), Move(Letter.B, Prime)]) == TurnBPrime(TurnS(TurnF(s)))
  {
  }

  /** `x'` as a composition of turns. */
  lemma XPrimeFormulaTurns(s: Cube)
    ensures ApplyMoves(s, [Move(Letter.F, Prime), Move(Letter.S, Prime), Move(Letter.B, Plain)]) == TurnB(TurnSPrime(TurnFPrime(s)))
  {
  }

  lemma XTurnsUndone(s: Cube)
    requires NormalCube(s)
    ensures TurnB(TurnSPrime(TurnFPrime(TurnBPrime(TurnS(TurnF(s)))))) == s
  {
    CommuteFB(TurnS(TurnF(s)));
    CommuteFS(TurnF(s));
    UndoF(s);
    CommuteBS(TurnS(s));
    UndoS(s);
    UndoBPrime(s);
  }

  lemma XPrimeTurnsUndone(s: Cube)
    requires NormalCube(s)
    ensures TurnBPrime(TurnS(TurnF(TurnB(TurnSPrime(TurnFPrime(s)))))) == s
  {
    CommuteFB(TurnSPrime(TurnFPrime(s)));
    CommuteFS(TurnFPrime(s));
    UndoFPrime(s);
    CommuteBS(TurnSPrime(s));
    UndoSPrime(s);
    UndoB(s);
  }

  lemma WholeCubeZUndone(s: Cube, m: Move)
    requires m.letter == Letter.z && m.IsPlain() && NormalCube(s)
    ensures Apply(Apply(s, m), m.Inverse()) == s
  {
    ApplyOfZ(s, m);
    ApplyOfZ(Apply(s, m), m.Inverse());
    ZFormulaTurns(s);
    ZPrimeFormulaTurns(Apply(s, m));
    ZTurnsUndone(s);
  }

  lemma WholeCubeZPrimeUndone(s: Cube, m: Move)
    requires m.letter == Letter.z && m.IsPrime() && NormalCube(s)
    ensures Apply(Apply(s, m), m.Inverse()) == s
  {
    ApplyOfZ(s, m);
    ApplyOfZ(Apply(s, m), m.Inverse());
    ZPrimeFormulaTurns(s);
    ZFormulaTurns(Apply(s, m));
    ZPrimeTurnsUndone(s);
  }

  lemma WholeCubeYUndone(s: Cube, m: Move)
    requires m.letter == Letter.y && m.IsPlain() && NormalCube(s)
    ensures Apply(Apply(s, m), m.Inverse()) == s
  {
    ApplyOfY(s, m);
    ApplyOfY(Apply(s, m), m.Inverse());
    YFormulaTurns(s);
    YPrimeFormulaTurns(Apply(s, m));
    YTurnsUndone(s);
  }

  lemma WholeCubeYPrimeUndone(s: Cube, m: Move)
    requires m.letter == Letter.y && m.IsPrime() && NormalCube(s)
    ensures Apply(Apply(s, m), m.Inverse()) == s
  {
    ApplyOfY(s, m);
    ApplyOfY(Apply(s, m), m.Inverse());
    YPrimeFormulaTurns(s);
    YFormulaTurns(Apply(s, m));
    YPrimeTurnsUndone(s);
  }

  lemma WholeCubeXUndone(s: Cube, m: Move)
    requires m.letter == Letter.x && m.IsPlain() && NormalCube(s)
    ensures Apply(Apply(s, m), m.Inverse()) == s
  {
    ApplyOfX(s, m);
    ApplyOfX(Apply(s, m), m.Inverse());
    XFormulaTurns(s);
    XPrimeFormulaTurns(Apply(s, m));
    XTurnsUndone(s);
  }

  lemma WholeCubeXPrimeUndone(s: Cube, m: Move)
    requires m.letter == Letter.x && m.IsPrime() && NormalCube(s)
    ensures Apply(Apply(s, m), m.Inverse()) == s
  {
    ApplyOfX(s, m);
    ApplyOfX(Apply(s, m), m.Inverse());
    XPrimeFormulaTurns(s);
    XFormulaTurns(Apply(s, m));
    XPrimeTurnsUndone(s);
  }

  /** A whole-cube turn is undone by its prime, and the prime by the plain turn. */
  lemma WholeCubeInverseCancels(s: Cube, m: Move)
    requires m.IsWholeCube() && NormalCube(s)
    ensures Apply(Apply(s, m), m.Inverse()) == s
  {
    if m.letter == Letter.z && m.IsPlain() {
      WholeCubeZUndone(s, m);
    } else if m.letter == Letter.z && m.IsPrime() {
      WholeCubeZPrimeUndone(s, m);
    } else if m.letter == Letter.y && m.IsPlain() {
      WholeCubeYUndone(s, m);
    } else if m.letter == Letter.y && m.IsPrime() {
      WholeCubeYPrimeUndone(s, m);
    } else if m.letter == Letter.x && m.IsPlain() {
      WholeCubeXUndone(s, m);
    } else if m.letter == Letter.x && m.IsPrime() {
      WholeCubeXPrimeUndone(s, m);
    } else {
      DoubledMovesIgnored(s, m);
      DoubledMovesIgnored(s, m.Inverse());
    }
  }

  /** Every move is undone by its inverse: a face, slice or whole-cube turn by its
      partner, and a doubled symbol (which does nothing) by itself. */
  lemma EveryInverseCancels(s: Cube, m: Move)
    requires NormalCube(s)
    ensures Apply(Apply(s, m), m.Inverse()) == s
  {
    if m.IsWholeCube() {
      WholeCubeInverseCancels(s, m);
    } else if m.IsDouble() {
      DoubledMovesIgnored(s, m);
      DoubledMovesIgnored(s, m.Inverse());
    } else {
      InverseCancels(s, m);
    }
  }
}
