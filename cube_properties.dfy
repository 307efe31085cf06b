/** Glyph angles and inverse cancellation: the arithmetic of quarter turns of a glyph,
    the face plate's rotation, and every face or slice turn undone by its primed (or
    plain) partner. */
module CubeProperties {
  import opened Types
  import opened CubeLogic

  // ---------------------------------------------------------------------------
  // Glyph angles

  /** The angles a glyph takes from the solved state on: quarter turns in [0, 360). */
  predicate QuarterAngle(a: int) {
    a == 0 || a == 90 || a == 180 || a == 270
  }

  predicate NormalRow(row: Row) {
    NormalAngle(row.c0.rotation) && NormalAngle(row.c1.rotation) && NormalAngle(row.c2.rotation)
  }

  predicate NormalFace(f: Face) {
    NormalRow(f.r0) && NormalRow(f.r1) && NormalRow(f.r2)
  }

  /** Every glyph angle of the state lies in [0, 360). */
  predicate NormalCube(s: Cube) {
    NormalFace(s.U) && NormalFace(s.D) && NormalFace(s.L) && NormalFace(s.R) && NormalFace(s.F) && NormalFace(s.B)
  }

  predicate QuarterRow(row: Row) {
    QuarterAngle(row.c0.rotation) && QuarterAngle(row.c1.rotation) && QuarterAngle(row.c2.rotation)
  }

  predicate QuarterFace(f: Face) {
    QuarterRow(f.r0) && QuarterRow(f.r1) && QuarterRow(f.r2)
  }

  /** Every glyph angle of the state is 0, 90, 180 or 270. */
  predicate QuarterCube(s: Cube) {
    QuarterFace(s.U) && QuarterFace(s.D) && QuarterFace(s.L) && QuarterFace(s.R) && QuarterFace(s.F) && QuarterFace(s.B)
  }

  /** A quarter turn of a glyph with a quarter angle lands on a quarter angle, and a
      quarter turn back returns the sticker exactly. */
  lemma RotateStickerQuarter(st: Sticker, degrees: int)
    requires QuarterAngle(st.rotation) && (degrees == 90 || degrees == -90)
    ensures QuarterAngle(RotateSticker(st, degrees).rotation)
    ensures RotateSticker(RotateSticker(st, degrees), -degrees) == st
  {
  }

  /** A quarter turn and its opposite cancel on any normalised glyph. */
  lemma RotateStickerInverse(st: Sticker, degrees: int)
    requires NormalAngle(st.rotation) && (degrees == 90 || degrees == -90)
    ensures NormalAngle(RotateSticker(st, degrees).rotation)
    ensures RotateSticker(RotateSticker(st, degrees), -degrees) == st
  {
  }

  /** Four quarter turns in the same direction bring a normalised glyph back. */
  lemma RotateStickerFour(st: Sticker, degrees: int)
    requires NormalAngle(st.rotation) && (degrees == 90 || degrees == -90)
    ensures RotateSticker(RotateSticker(RotateSticker(RotateSticker(st, degrees), degrees), degrees), degrees) == st
  {
  }

  lemma TurnRowInverse(row: Row, degrees: int)
    requires NormalRow(row) && (degrees == 90 || degrees == -90)
    ensures NormalRow(TurnRow(row, degrees))
    ensures TurnRow(TurnRow(row, degrees), -degrees) == row
  {
    RotateStickerInverse(row.c0, degrees);
    RotateStickerInverse(row.c1, degrees);
    RotateStickerInverse(row.c2, degrees);
  }

  /** A quarter turn of a strip of quarter-angle glyphs keeps them at quarter angles. */
  lemma TurnRowQuarter(row: Row, degrees: int)
    requires QuarterRow(row) && (degrees == 90 || degrees == -90)
    ensures QuarterRow(TurnRow(row, degrees))
  {
    RotateStickerQuarter(row.c0, degrees);
    RotateStickerQuarter(row.c1, degrees);
    RotateStickerQuarter(row.c2, degrees);
  }

  /** Quarter angles lie in [0, 360). */
  lemma QuarterIsNormal(s: Cube)
    requires QuarterCube(s)
    ensures NormalCube(s)
  {
  }

  // ---------------------------------------------------------------------------
  // The face plate

  /** Counter-clockwise undoes clockwise and the other way round, glyphs included. */
  lemma RotateFaceInverse(f: Face)
    requires NormalFace(f)
    ensures RotateFace(RotateFace(f, true), false) == f
    ensures RotateFace(RotateFace(f, false), true) == f
  {
    var a := RotateFace(RotateFace(f, true), false);
    var b := RotateFace(RotateFace(f, false), true);
    forall i: Idx, j: Idx ensures a.At(i, j) == f.At(i, j) && b.At(i, j) == f.At(i, j) {
      RotateStickerInverse(f.At(i, j), 90);
      RotateStickerInverse(f.At(i, j), -90);
    }
    FaceExt(a, f);
    FaceExt(b, f);
  }

  /** Turning the plate keeps its glyphs at quarter angles. */
  lemma RotateFaceQuarter(f: Face, clockwise: bool)
    requires QuarterFace(f)
    ensures QuarterFace(RotateFace(f, clockwise))
  {
    var d := if clockwise then 90 else -90;
    TurnRowQuarter(f.Col(0), d);
    TurnRowQuarter(f.Col(1), d);
    TurnRowQuarter(f.Col(2), d);
    TurnRowQuarter(f.Col(0).Reversed(), d);
    TurnRowQuarter(f.Col(1).Reversed(), d);
    TurnRowQuarter(f.Col(2).Reversed(), d);
  }

  /** Four quarter turns in one direction give the face back, glyphs included. */
  lemma RotateFaceFour(f: Face, clockwise: bool)
    requires NormalFace(f)
    ensures RotateFace(RotateFace(RotateFace(RotateFace(f, clockwise), clockwise), clockwise), clockwise) == f
  {
    var g := RotateFace(RotateFace(RotateFace(RotateFace(f, clockwise), clockwise), clockwise), clockwise);
    forall i: Idx, j: Idx ensures g.At(i, j) == f.At(i, j) {
      RotateStickerFour(f.At(i, j), if clockwise then 90 else -90);
    }
    FaceExt(g, f);
  }

  // ---------------------------------------------------------------------------
  // Inverse cancellation: each primed table, written out on its own in `applyMove`,
  // is exactly the inverse of its plain table.

  lemma UndoU(s: Cube)
    requires NormalCube(s)
    ensures TurnUPrime(TurnU(s)) == s
  {
    RotateFaceInverse(s.U);
  }

  lemma UndoUPrime(s: Cube)
    requires NormalCube(s)
    ensures TurnU(TurnUPrime(s)) == s
  {
    RotateFaceInverse(s.U);
  }

  lemma UndoD(s: Cube)
    requires NormalCube(s)
    ensures TurnDPrime(TurnD(s)) == s
  {
    RotateFaceInverse(s.D);
  }

  lemma UndoDPrime(s: Cube)
    requires NormalCube(s)
    ensures TurnD(TurnDPrime(s)) == s
  {
    RotateFaceInverse(s.D);
  }

  lemma UndoL(s: Cube)
    requires NormalCube(s)
    ensures TurnLPrime(TurnL(s)) == s
  {
    RotateFaceInverse(s.L);
  }

  lemma UndoLPrime(s: Cube)
    requires NormalCube(s)
    ensures TurnL(TurnLPrime(s)) == s
  {
    RotateFaceInverse(s.L);
  }

  lemma UndoR(s: Cube)
    requires NormalCube(s)
    ensures TurnRPrime(TurnR(s)) == s
  {
    RotateFaceInverse(s.R);
  }

  lemma UndoRPrime(s: Cube)
    requires NormalCube(s)
    ensures TurnR(TurnRPrime(s)) == s
  {
    RotateFaceInverse(s.R);
  }

  lemma UndoF(s: Cube)
    requires NormalCube(s)
    ensures TurnFPrime(TurnF(s)) == s
  {
    RotateFaceInverse(s.F);
    TurnRowInverse(s.L.Col(2).Reversed(), 90);
    TurnRowInverse(s.D.GetRow(0), 90);
    TurnRowInverse(s.R.Col(0).Reversed(), 90);
    TurnRowInverse(s.U.GetRow(2), 90);
  }

  lemma UndoFPrime(s: Cube)
    requires NormalCube(s)
    ensures TurnF(TurnFPrime(s)) == s
  {
    RotateFaceInverse(s.F);
    TurnRowInverse(s.R.Col(0), -90);
    TurnRowInverse(s.D.GetRow(0).Reversed(), -90);
    TurnRowInverse(s.L.Col(2), -90);
    TurnRowInverse(s.U.GetRow(2).Reversed(), -90);
  }

  lemma UndoB(s: Cube)
    requires NormalCube(s)
    ensures TurnBPrime(TurnB(s)) == s
  {
    RotateFaceInverse(s.B);
    TurnRowInverse(s.R.Col(2), -90);
    TurnRowInverse(s.D.GetRow(2).Reversed(), -90);
    TurnRowInverse(s.L.Col(0), -90);
    TurnRowInverse(s.U.GetRow(0).Reversed(), -90);
  }

  lemma UndoBPrime(s: Cube)
    requires NormalCube(s)
    ensures TurnB(TurnBPrime(s)) == s
  {
    RotateFaceInverse(s.B);
    TurnRowInverse(s.L.Col(0).Reversed(), 90);
    TurnRowInverse(s.D.GetRow(2), 90);
    TurnRowInverse(s.R.Col(2).Reversed(), 90);
    TurnRowInverse(s.U.GetRow(0), 90);
  }

  lemma UndoM(s: Cube)
    ensures TurnMPrime(TurnM(s)) == s
  {
  }

  lemma UndoMPrime(s: Cube)
    ensures TurnM(TurnMPrime(s)) == s
  {
  }

  lemma UndoE(s: Cube)
    ensures TurnEPrime(TurnE(s)) == s
  {
  }

  lemma UndoEPrime(s: Cube)
    ensures TurnE(TurnEPrime(s)) == s
  {
  }

  lemma UndoS(s: Cube)
    requires NormalCube(s)
    ensures TurnSPrime(TurnS(s)) == s
  {
    TurnRowInverse(s.L.Col(1).Reversed(), 90);
    TurnRowInverse(s.D.GetRow(1), 90);
    TurnRowInverse(s.R.Col(1).Reversed(), 90);
    TurnRowInverse(s.U.GetRow(1), 90);
  }

  lemma UndoSPrime(s: Cube)
    requires NormalCube(s)
    ensures TurnS(TurnSPrime(s)) == s
  {
    TurnRowInverse(s.R.Col(1), -90);
    TurnRowInverse(s.D.GetRow(1).Reversed(), -90);
    TurnRowInverse(s.L.Col(1), -90);
    TurnRowInverse(s.U.GetRow(1).Reversed(), -90);
  }

  /** A plain layer turn followed by its primed partner gives back exactly the state it
      started from, colours and glyph angles alike. */
  lemma PlainThenPrime(s: Cube, m: Move)
    requires m.IsLayerTurn() && m.IsPlain() && NormalCube(s)
    ensures Apply(Apply(s, m), m.Inverse()) == s
  {
    match m.letter
    case U => ApplyOfU(s, m); ApplyOfU(TurnU(s), m.Inverse()); UndoU(s);
    case D => ApplyOfD(s, m); ApplyOfD(TurnD(s), m.Inverse()); UndoD(s);
    case L => ApplyOfL(s, m); ApplyOfL(TurnL(s), m.Inverse()); UndoL(s);
    case R => ApplyOfR(s, m); ApplyOfR(TurnR(s), m.Inverse()); UndoR(s);
    case F => ApplyOfF(s, m); ApplyOfF(TurnF(s), m.Inverse()); UndoF(s);
    case B => ApplyOfB(s, m); ApplyOfB(TurnB(s), m.Inverse()); UndoB(s);
    case M => ApplyOfM(s, m); ApplyOfM(TurnM(s), m.Inverse()); UndoM(s);
    case E => ApplyOfE(s, m); ApplyOfE(TurnE(s), m.Inverse()); UndoE(s);
    case S => ApplyOfS(s, m); ApplyOfS(TurnS(s), m.Inverse()); UndoS(s);
  }

  /** A primed layer turn followed by its plain partner gives back the state. */
  lemma PrimeThenPlain(s: Cube, m: Move)
    requires m.IsLayerTurn() && m.IsPrime() && NormalCube(s)
    ensures Apply(Apply(s, m), m.Inverse()) == s
  {
    match m.letter
    case U => ApplyOfU(s, m); ApplyOfU(TurnUPrime(s), m.Inverse()); UndoUPrime(s);
    case D => ApplyOfD(s, m); ApplyOfD(TurnDPrime(s), m.Inverse()); UndoDPrime(s);
    case L => ApplyOfL(s, m); ApplyOfL(TurnLPrime(s), m.Inverse()); UndoLPrime(s);
    case R => ApplyOfR(s, m); ApplyOfR(TurnRPrime(s), m.Inverse()); UndoRPrime(s);
    case F => ApplyOfF(s, m); ApplyOfF(TurnFPrime(s), m.Inverse()); UndoFPrime(s);
    case B => ApplyOfB(s, m); ApplyOfB(TurnBPrime(s), m.Inverse()); UndoBPrime(s);
    case M => ApplyOfM(s, m); ApplyOfM(TurnMPrime(s), m.Inverse()); UndoMPrime(s);
    case E => ApplyOfE(s, m); ApplyOfE(TurnEPrime(s), m.Inverse()); UndoEPrime(s);
    case S => ApplyOfS(s, m); ApplyOfS(TurnSPrime(s), m.Inverse()); UndoSPrime(s);
  }

  /** Every layer turn is undone by its inverse. */
  lemma InverseCancels(s: Cube, m: Move)
    requires m.IsLayerTurn() && NormalCube(s)
    ensures Apply(Apply(s, m), m.Inverse()) == s
  {
    if m.IsPlain() {
      PlainThenPrime(s, m);
    } else {
      PrimeThenPlain(s, m);
    }
  }

  /** The M and E slices only move stickers and never turn a glyph, so on any state,
      even one whose angles lie outside [0, 360), a slice move followed by its inverse
      gives back exactly the state: colours and glyph angles alike. */
  lemma SliceUndoneOnAnyState(s: Cube, m: Move)
    requires m.letter == Letter.M || m.letter == Letter.E
    ensures Apply(Apply(s, m), m.Inverse()) == s
  {
    if m.letter == Letter.M {
      ApplyOfM(s, m);
      ApplyOfM(Apply(s, m), m.Inverse());
      UndoM(s);
      UndoMPrime(s);
    } else {
      ApplyOfE(s, m);
      ApplyOfE(Apply(s, m), m.Inverse());
      UndoE(s);
      UndoEPrime(s);
    }
  }
}
