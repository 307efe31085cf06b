/** The move engine: a move maps a cube state to a new cube state.

    `Apply` states each move as four strip exchanges (and, for a face turn, the
    rotation of the face plate); `ApplyMove` is the engine as `applyMove` writes it,
    cell by cell on a copy of the state inside `for` loops, and is proved to
    compute `Apply`. */
module CubeLogic {
  import opened Types

  /** JavaScript's `a % 360` on integers: the remainder takes the sign of the dividend
      (Dafny's `%` is Euclidean, so negative dividends are handled explicitly). */
  function JsRem360(a: int): (r: int)
    ensures -360 < r < 360
    ensures a >= 0 ==> r >= 0
    ensures a <= 0 ==> r <= 0
    ensures (a - r) % 360 == 0
  {
    if a >= 0 then a % 360 else -((-a) % 360)
  }

  /** A glyph angle already normalised into [0, 360). */
  predicate NormalAngle(a: int) {
    0 <= a < 360
  }

  /** The sticker with `degrees` added to its glyph angle, folded back with JavaScript's `%`. */
  function RotateSticker(st: Sticker, degrees: int): (r: Sticker)
    ensures r.color == st.color
    ensures NormalAngle(st.rotation) && -360 <= degrees <= 360 ==>
              NormalAngle(r.rotation) &&
              (r.rotation == st.rotation + degrees || r.rotation == st.rotation + degrees - 360
               || r.rotation == st.rotation + degrees + 360)
  {
    st.(rotation := JsRem360(st.rotation + degrees + 360))
  }

  /** A strip with every sticker's glyph turned by `degrees`. */
  function TurnRow(row: Row, degrees: int): (r: Row)
    ensures forall k: Idx :: r.At(k) == RotateSticker(row.At(k), degrees)
  {
    Row(RotateSticker(row.c0, degrees), RotateSticker(row.c1, degrees), RotateSticker(row.c2, degrees))
  }

  /** The face plate turned a quarter: clockwise `new[r][c] = old[2-c][r]`,
      counter-clockwise `new[r][c] = old[c][2-r]`; every glyph turns with it. */
  function RotateFace(f: Face, clockwise: bool): (g: Face)
    ensures clockwise ==> forall r: Idx, c: Idx :: g.At(r, c) == RotateSticker(f.At(2 - c, r), 90)
    ensures !clockwise ==> forall r: Idx, c: Idx :: g.At(r, c) == RotateSticker(f.At(c, 2 - r), -90)
  {
    var delta := if clockwise then 90 else -90;
    var moved :=
      if clockwise then
        Face(Row(f.r2.c0, f.r1.c0, f.r0.c0),
             Row(f.r2.c1, f.r1.c1, f.r0.c1),
             Row(f.r2.c2, f.r1.c2, f.r0.c2))
      else
        Face(Row(f.r0.c2, f.r1.c2, f.r2.c2),
             Row(f.r0.c1, f.r1.c1, f.r2.c1),
             Row(f.r0.c0, f.r1.c0, f.r2.c0));
    Face(TurnRow(moved.r0, delta), TurnRow(moved.r1, delta), TurnRow(moved.r2, delta))
  }

  /** U: face U clockwise; the top rows cycle F <- R <- B <- L <- F. */
  function TurnU(s: Cube): Cube {
    s.(U := RotateFace(s.U, true),
       F := s.F.WithRow(0, s.R.GetRow(0)), R := s.R.WithRow(0, s.B.GetRow(0)),
       B := s.B.WithRow(0, s.L.GetRow(0)), L := s.L.WithRow(0, s.F.GetRow(0)))
  }

  /** U': face U counter-clockwise; the top rows cycle F <- L <- B <- R <- F. */
  function TurnUPrime(s: Cube): Cube {
    s.(U := RotateFace(s.U, false),
       F := s.F.WithRow(0, s.L.GetRow(0)), R := s.R.WithRow(0, s.F.GetRow(0)),
       B := s.B.WithRow(0, s.R.GetRow(0)), L := s.L.WithRow(0, s.B.GetRow(0)))
  }

  /** D: face D clockwise; the bottom rows cycle F <- L <- B <- R <- F. */
  function TurnD(s: Cube): Cube {
    s.(D := RotateFace(s.D, true),
       F := s.F.WithRow(2, s.L.GetRow(2)), L := s.L.WithRow(2, s.B.GetRow(2)),
       B := s.B.WithRow(2, s.R.GetRow(2)), R := s.R.WithRow(2, s.F.GetRow(2)))
  }

  /** D': face D counter-clockwise; the bottom rows cycle F <- R <- B <- L <- F. */
  function TurnDPrime(s: Cube): Cube {
    s.(D := RotateFace(s.D, false),
       F := s.F.WithRow(2, s.R.GetRow(2)), R := s.R.WithRow(2, s.B.GetRow(2)),
       B := s.B.WithRow(2, s.L.GetRow(2)), L := s.L.WithRow(2, s.F.GetRow(2)))
  }

  /** L: face L clockwise; the left columns cycle U <- B (reversed) <- D <- F <- U. */
  function TurnL(s: Cube): Cube {
    s.(L := RotateFace(s.L, true),
       U := s.U.WithCol(0, s.B.Col(2).Reversed()), B := s.B.WithCol(2, s.D.Col(0).Reversed()),
       D := s.D.WithCol(0, s.F.Col(0)), F := s.F.WithCol(0, s.U.Col(0)))
  }

  /** L': face L counter-clockwise; the left columns cycle U <- F <- D <- B (reversed) <- U. */
  function TurnLPrime(s: Cube): Cube {
    s.(L := RotateFace(s.L, false),
       U := s.U.WithCol(0, s.F.Col(0)), F := s.F.WithCol(0, s.D.Col(0)),
       D := s.D.WithCol(0, s.B.Col(2).Reversed()), B := s.B.WithCol(2, s.U.Col(0).Reversed()))
  }

  /** R: face R clockwise; the right columns cycle U <- F <- D <- B (reversed) <- U. */
  function TurnR(s: Cube): Cube {
    s.(R := RotateFace(s.R, true),
       U := s.U.WithCol(2, s.F.Col(2)), F := s.F.WithCol(2, s.D.Col(2)),
       D := s.D.WithCol(2, s.B.Col(0).Reversed()), B := s.B.WithCol(0, s.U.Col(2).Reversed()))
  }

  /** R': face R counter-clockwise; the right columns cycle U <- B (reversed) <- D <- F <- U. */
  function TurnRPrime(s: Cube): Cube {
    s.(R := RotateFace(s.R, false),
       U := s.U.WithCol(2, s.B.Col(0).Reversed()), B := s.B.WithCol(0, s.D.Col(2).Reversed()),
       D := s.D.WithCol(2, s.F.Col(2)), F := s.F.WithCol(2, s.U.Col(2)))
  }

  /** F: face F clockwise; the strips around it cycle U <- L <- D <- R <- U and their glyphs turn +90. */
  function TurnF(s: Cube): Cube {
    s.(F := RotateFace(s.F, true),
       U := s.U.WithRow(2, TurnRow(s.L.Col(2).Reversed(), 90)),
       L := s.L.WithCol(2, TurnRow(s.D.GetRow(0), 90)),
       D := s.D.WithRow(0, TurnRow(s.R.Col(0).Reversed(), 90)),
       R := s.R.WithCol(0, TurnRow(s.U.GetRow(2), 90)))
  }

  /** F': face F counter-clockwise; the strips cycle U <- R <- D <- L <- U and their glyphs turn -90. */
  function TurnFPrime(s: Cube): Cube {
    s.(F := RotateFace(s.F, false),
       U := s.U.WithRow(2, TurnRow(s.R.Col(0), -90)),
       R := s.R.WithCol(0, TurnRow(s.D.GetRow(0).Reversed(), -90)),
       D := s.D.WithRow(0, TurnRow(s.L.Col(2), -90)),
       L := s.L.WithCol(2, TurnRow(s.U.GetRow(2).Reversed(), -90)))
  }

  /** B: face B clockwise; the strips around it cycle U <- R <- D <- L <- U and their glyphs turn -90. */
  function TurnB(s: Cube): Cube {
    s.(B := RotateFace(s.B, true),
       U := s.U.WithRow(0, TurnRow(s.R.Col(2), -90)),
       R := s.R.WithCol(2, TurnRow(s.D.GetRow(2).Reversed(), -90)),
       D := s.D.WithRow(2, TurnRow(s.L.Col(0), -90)),
       L := s.L.WithCol(0, TurnRow(s.U.GetRow(0).Reversed(), -90)))
  }

  /** B': face B counter-clockwise; the strips cycle U <- L <- D <- R <- U and their glyphs turn +90. */
  function TurnBPrime(s: Cube): Cube {
    s.(B := RotateFace(s.B, false),
       U := s.U.WithRow(0, TurnRow(s.L.Col(0).Reversed(), 90)),
       L := s.L.WithCol(0, TurnRow(s.D.GetRow(2), 90)),
       D := s.D.WithRow(2, TurnRow(s.R.Col(2).Reversed(), 90)),
       R := s.R.WithCol(2, TurnRow(s.U.GetRow(0), 90)))
  }

  /** E: the middle rows cycle F <- L <- B <- R <- F (as D). */
  function TurnE(s: Cube): Cube {
    s.(F := s.F.WithRow(1, s.L.GetRow(1)), R := s.R.WithRow(1, s.F.GetRow(1)),
       B := s.B.WithRow(1, s.R.GetRow(1)), L := s.L.WithRow(1, s.B.GetRow(1)))
  }

  /** E': the middle rows cycle F <- R <- B <- L <- F. */
  function TurnEPrime(s: Cube): Cube {
    s.(F := s.F.WithRow(1, s.R.GetRow(1)), R := s.R.WithRow(1, s.B.GetRow(1)),
       B := s.B.WithRow(1, s.L.GetRow(1)), L := s.L.WithRow(1, s.F.GetRow(1)))
  }

  /** M: the middle columns cycle U <- B (reversed) <- D <- F <- U (as L). */
  function TurnM(s: Cube): Cube {
    s.(U := s.U.WithCol(1, s.B.Col(1).Reversed()), B := s.B.WithCol(1, s.D.Col(1).Reversed()),
       D := s.D.WithCol(1, s.F.Col(1)), F := s.F.WithCol(1, s.U.Col(1)))
  }

  /** M': the middle columns cycle U <- F <- D <- B (reversed) <- U. */
  function TurnMPrime(s: Cube): Cube {
    s.(U := s.U.WithCol(1, s.F.Col(1)), F := s.F.WithCol(1, s.D.Col(1)),
       D := s.D.WithCol(1, s.B.Col(1).Reversed()), B := s.B.WithCol(1, s.U.Col(1).Reversed()))
  }

  /** S: the middle strips cycle U <- L <- D <- R <- U (as F), glyphs turning +90. */
  function TurnS(s: Cube): Cube {
    s.(U := s.U.WithRow(1, TurnRow(s.L.Col(1).Reversed(), 90)),
       L := s.L.WithCol(1, TurnRow(s.D.GetRow(1), 90)),
       D := s.D.WithRow(1, TurnRow(s.R.Col(1).Reversed(), 90)),
       R := s.R.WithCol(1, TurnRow(s.U.GetRow(1), 90)))
  }

  /** S': the middle strips cycle U <- R <- D <- L <- U, glyphs turning -90. */
  function TurnSPrime(s: Cube): Cube {
    s.(U := s.U.WithRow(1, TurnRow(s.R.Col(1), -90)),
       R := s.R.WithCol(1, TurnRow(s.D.GetRow(1).Reversed(), -90)),
       D := s.D.WithRow(1, TurnRow(s.L.Col(1), -90)),
       L := s.L.WithCol(1, TurnRow(s.U.GetRow(1).Reversed(), -90)))
  }

  /** A whole-cube turn runs the engine again on three moves; everything else is one
      step. */
  function Rank(m: Move): nat {
    if m.IsWholeCube() then 1 else 0
  }

  function MaxRank(ms: seq<Move>): nat {
    if ms == [] then 0 else var r := MaxRank(ms[1..]); if Rank(ms[0]) > r then Rank(ms[0]) else r
  }

  /** The state after the moves, left to right (`applyMoves`, a `reduce`). */
  function ApplyMoves(s: Cube, ms: seq<Move>): Cube
    decreases MaxRank(ms), |ms|
  {
    if ms == [] then s else ApplyMoves(Apply(s, ms[0]), ms[1..])
  }

  /** The state after one move. Each case states the new contents of the four strips
      it exchanges (and the rotated face plate); everything not named is unchanged.
      A whole-cube turn runs its three layer moves through `ApplyMoves`. Doubled
      symbols have no case and leave the state as it is. */
  function Apply(s: Cube, m: Move): Cube
    decreases Rank(m), 0
  {
    match m
    // Face turns
    case Move(U, Plain) => TurnU(s)
    case Move(U, Prime) => TurnUPrime(s)
    case Move(D, Plain) => TurnD(s)
    case Move(D, Prime) => TurnDPrime(s)
    case Move(L, Plain) => TurnL(s)
    case Move(L, Prime) => TurnLPrime(s)
    case Move(R, Plain) => TurnR(s)
    case Move(R, Prime) => TurnRPrime(s)
    case Move(F, Plain) => TurnF(s)
    case Move(F, Prime) => TurnFPrime(s)
    case Move(B, Plain) => TurnB(s)
    case Move(B, Prime) => TurnBPrime(s)
    // Middle slice turns
    case Move(E, Plain) => TurnE(s)
    case Move(E, Prime) => TurnEPrime(s)
    case Move(M, Plain) => TurnM(s)
    case Move(M, Prime) => TurnMPrime(s)
    case Move(S, Plain) => TurnS(s)
    case Move(S, Prime) => TurnSPrime(s)
    // Whole cube rotations
    case Move(z, Plain) => ApplyMoves(s, [Move(Letter.U, Plain), Move(Letter.E, Prime), Move(Letter.D, Prime)])
    case Move(z, Prime) => ApplyMoves(s, [Move(Letter.U, Prime), Move(Letter.E, Plain), Move(Letter.D, Plain)])
    case Move(y, Plain) => ApplyMoves(s, [Move(Letter.R, Plain), Move(Letter.M, Prime), Move(Letter.L, Prime)])
    case Move(y, Prime) => ApplyMoves(s, [Move(Letter.R, Prime), Move(Letter.M, Plain), Move(Letter.L, Plain)])
    case Move(x, Plain) => ApplyMoves(s, [Move(Letter.F, Plain), Move(Letter.S, Plain), Move(Letter.B, Prime)])
    case Move(x, Prime) => ApplyMoves(s, [Move(Letter.F, Prime), Move(Letter.S, Prime), Move(Letter.B, Plain)])
    case _ => s
  }

  // Apply for one letter at a time: callers that dispatch on the letter use these
  // instead of unfolding all 36 cases of Apply at once.

  lemma ApplyOfU(s: Cube, m: Move)
    requires m.letter == Letter.U
    ensures Apply(s, m) == if m.IsPlain() then TurnU(s) else if m.IsPrime() then TurnUPrime(s) else s
  {
  }

  lemma ApplyOfD(s: Cube, m: Move)
    requires m.letter == Letter.D
    ensures Apply(s, m) == if m.IsPlain() then TurnD(s) else if m.IsPrime() then TurnDPrime(s) else s
  {
  }

  lemma ApplyOfL(s: Cube, m: Move)
    requires m.letter == Letter.L
    ensures Apply(s, m) == if m.IsPlain() then TurnL(s) else if m.IsPrime() then TurnLPrime(s) else s
  {
  }

  lemma ApplyOfR(s: Cube, m: Move)
    requires m.letter == Letter.R
    ensures Apply(s, m) == if m.IsPlain() then TurnR(s) else if m.IsPrime() then TurnRPrime(s) else s
  {
  }

  lemma ApplyOfF(s: Cube, m: Move)
    requires m.letter == Letter.F
    ensures Apply(s, m) == if m.IsPlain() then TurnF(s) else if m.IsPrime() then TurnFPrime(s) else s
  {
  }

  lemma ApplyOfB(s: Cube, m: Move)
    requires m.letter == Letter.B
    ensures Apply(s, m) == if m.IsPlain() then TurnB(s) else if m.IsPrime() then TurnBPrime(s) else s
  {
  }

  lemma ApplyOfE(s: Cube, m: Move)
    requires m.letter == Letter.E
    ensures Apply(s, m) == if m.IsPlain() then TurnE(s) else if m.IsPrime() then TurnEPrime(s) else s
  {
  }

  lemma ApplyOfM(s: Cube, m: Move)
    requires m.letter == Letter.M
    ensures Apply(s, m) == if m.IsPlain() then TurnM(s) else if m.IsPrime() then TurnMPrime(s) else s
  {
  }

  lemma ApplyOfS(s: Cube, m: Move)
    requires m.letter == Letter.S
    ensures Apply(s, m) == if m.IsPlain() then TurnS(s) else if m.IsPrime() then TurnSPrime(s) else s
  {
  }

  lemma ApplyOfZ(s: Cube, m: Move)
    requires m.letter == Letter.z
    ensures Apply(s, m) ==
      if m.IsPlain() then ApplyMoves(s, [Move(Letter.U, Plain), Move(Letter.E, Prime), Move(Letter.D, Prime)])
      else if m.IsPrime() then ApplyMoves(s, [Move(Letter.U, Prime), Move(Letter.E, Plain), Move(Letter.D, Plain)])
      else s
  {
  }

  lemma ApplyOfY(s: Cube, m: Move)
    requires m.letter == Letter.y
    ensures Apply(s, m) ==
      if m.IsPlain() then ApplyMoves(s, [Move(Letter.R, Plain), Move(Letter.M, Prime), Move(Letter.L, Prime)])
      else if m.IsPrime() then ApplyMoves(s, [Move(Letter.R, Prime), Move(Letter.M, Plain), Move(Letter.L, Plain)])
      else s
  {
  }

  lemma ApplyOfX(s: Cube, m: Move)
    requires m.letter == Letter.x
    ensures Apply(s, m) ==
      if m.IsPlain() then ApplyMoves(s, [Move(Letter.F, Plain), Move(Letter.S, Plain), Move(Letter.B, Prime)])
      else if m.IsPrime() then ApplyMoves(s, [Move(Letter.F, Prime), Move(Letter.S, Prime), Move(Letter.B, Plain)])
      else s
  {
  }

  /** A doubled move such as `U2` or `x2` matches no case of the dispatch and leaves the
      cube untouched. */
  lemma DoubledMovesIgnored(s: Cube, m: Move)
    requires m.IsDouble()
    ensures Apply(s, m) == s
  {
  }

  /** After `i` passes of a strip loop: the first `i` positions along the strip,
      counted from the start (or from the end when `fromEnd`), have been written. */
  predicate Written(k: Idx, i: int, fromEnd: bool) {
    if fromEnd then 2 - k < i else k < i
  }

  /** Face `nf` is `of` with the written cells of column `c` taken from `src`. */
  ghost predicate ColWritten(nf: Face, of: Face, c: Idx, src: Row, i: int, fromEnd: bool) {
    forall r: Idx, j: Idx :: nf.At(r, j) == if j == c && Written(r, i, fromEnd) then src.At(r) else of.At(r, j)
  }

  /** Face `nf` is `of` with the written cells of row `r` taken from `src`. */
  ghost predicate RowWritten(nf: Face, of: Face, r: Idx, src: Row, i: int, fromEnd: bool) {
    forall k: Idx, j: Idx :: nf.At(k, j) == if k == r && Written(j, i, fromEnd) then src.At(j) else of.At(k, j)
  }

  lemma ColWrittenAll(nf: Face, of: Face, c: Idx, src: Row, fromEnd: bool)
    requires ColWritten(nf, of, c, src, 3, fromEnd)
    ensures nf == of.WithCol(c, src)
  {
    WithColAt(of, c, src);
    FaceExt(nf, of.WithCol(c, src));
  }

  lemma RowWrittenAll(nf: Face, of: Face, r: Idx, src: Row, fromEnd: bool)
    requires RowWritten(nf, of, r, src, 3, fromEnd)
    ensures nf == of.WithRow(r, src)
  {
    WithRowAt(of, r, src);
    FaceExt(nf, of.WithRow(r, src));
  }

  /** `applyMove`'s `case 'U'`: the face plate turns and four whole rows are exchanged. */
  method CaseU(oldState: Cube) returns (newState: Cube)
    ensures newState == Apply(oldState, Move(Letter.U, Plain))
  {
    newState := oldState;
    newState := newState.(U := RotateFace(oldState.U, true));
    newState := newState.(
      F := newState.F.WithRow(0, oldState.R.GetRow(0)),
      R := newState.R.WithRow(0, oldState.B.GetRow(0)),
      B := newState.B.WithRow(0, oldState.L.GetRow(0)),
      L := newState.L.WithRow(0, oldState.F.GetRow(0)));
  }

  /** `applyMove`'s `case 'U''`: the face plate turns and four whole rows are exchanged. */
  method CaseUPrime(oldState: Cube) returns (newState: Cube)
    ensures newState == Apply(oldState, Move(Letter.U, Prime))
  {
    newState := oldState;
    newState := newState.(U := RotateFace(oldState.U, false));
    newState := newState.(
      F := newState.F.WithRow(0, oldState.L.GetRow(0)),
      R := newState.R.WithRow(0, oldState.F.GetRow(0)),
      B := newState.B.WithRow(0, oldState.R.GetRow(0)),
      L := newState.L.WithRow(0, oldState.B.GetRow(0)));
  }

  /** `applyMove`'s `case 'D'`: the face plate turns and four whole rows are exchanged. */
  method CaseD(oldState: Cube) returns (newState: Cube)
    ensures newState == Apply(oldState, Move(Letter.D, Plain))
  {
    newState := oldState;
    newState := newState.(D := RotateFace(oldState.D, true));
    newState := newState.(
      F := newState.F.WithRow(2, oldState.L.GetRow(2)),
      L := newState.L.WithRow(2, oldState.B.GetRow(2)),
      B := newState.B.WithRow(2, oldState.R.GetRow(2)),
      R := newState.R.WithRow(2, oldState.F.GetRow(2)));
  }

  /** `applyMove`'s `case 'D''`: the face plate turns and four whole rows are exchanged. */
  method CaseDPrime(oldState: Cube) returns (newState: Cube)
    ensures newState == Apply(oldState, Move(Letter.D, Prime))
  {
    newState := oldState;
    newState := newState.(D := RotateFace(oldState.D, false));
    newState := newState.(
      F := newState.F.WithRow(2, oldState.R.GetRow(2)),
      R := newState.R.WithRow(2, oldState.B.GetRow(2)),
      B := newState.B.WithRow(2, oldState.L.GetRow(2)),
      L := newState.L.WithRow(2, oldState.F.GetRow(2)));
  }

  /** `applyMove`'s `case 'E'`: four whole rows are exchanged. */
  method CaseE(oldState: Cube) returns (newState: Cube)
    ensures newState == Apply(oldState, Move(Letter.E, Plain))
  {
    newState := oldState;
    newState := newState.(
      F := newState.F.WithRow(1, oldState.L.GetRow(1)),
      R := newState.R.WithRow(1, oldState.F.GetRow(1)),
      B := newState.B.WithRow(1, oldState.R.GetRow(1)),
      L := newState.L.WithRow(1, oldState.B.GetRow(1)));
  }

  /** `applyMove`'s `case 'E''`: four whole rows are exchanged. */
  method CaseEPrime(oldState: Cube) returns (newState: Cube)
    ensures newState == Apply(oldState, Move(Letter.E, Prime))
  {
    newState := oldState;
    newState := newState.(
      F := newState.F.WithRow(1, oldState.R.GetRow(1)),
      R := newState.R.WithRow(1, oldState.B.GetRow(1)),
      B := newState.B.WithRow(1, oldState.L.GetRow(1)),
      L := newState.L.WithRow(1, oldState.F.GetRow(1)));
  }

  /** `applyMove`'s `case 'L'` loop. */
  method CaseL(oldState: Cube) returns (newState: Cube)
    ensures newState == Apply(oldState, Move(Letter.L, Plain))
  {
    newState := oldState;
    newState := newState.(L := RotateFace(oldState.L, true));
    for i := 0 to 3
      invariant newState.L == RotateFace(oldState.L, true) && newState.R == oldState.R
      invariant ColWritten(newState.U, oldState.U, 0, oldState.B.Col(2).Reversed(), i, false)
      invariant ColWritten(newState.B, oldState.B, 2, oldState.D.Col(0).Reversed(), i, true)
      invariant ColWritten(newState.D, oldState.D, 0, oldState.F.Col(0), i, false)
      invariant ColWritten(newState.F, oldState.F, 0, oldState.U.Col(0), i, false)
    {
      newState := newState.(U := newState.U.With(i, 0, oldState.B.At(2 - i, 2)));
      newState := newState.(B := newState.B.With(2 - i, 2, oldState.D.At(i, 0)));
      newState := newState.(D := newState.D.With(i, 0, oldState.F.At(i, 0)));
      newState := newState.(F := newState.F.With(i, 0, oldState.U.At(i, 0)));
    }
    ColWrittenAll(newState.U, oldState.U, 0, oldState.B.Col(2).Reversed(), false);
    ColWrittenAll(newState.B, oldState.B, 2, oldState.D.Col(0).Reversed(), true);
    ColWrittenAll(newState.D, oldState.D, 0, oldState.F.Col(0), false);
    ColWrittenAll(newState.F, oldState.F, 0, oldState.U.Col(0), false);
  }

  /** `applyMove`'s `case 'L''` loop. */
  method CaseLPrime(oldState: Cube) returns (newState: Cube)
    ensures newState == Apply(oldState, Move(Letter.L, Prime))
  {
    newState := oldState;
    newState := newState.(L := RotateFace(oldState.L, false));
    for i := 0 to 3
      invariant newState.L == RotateFace(oldState.L, false) && newState.R == oldState.R
      invariant ColWritten(newState.U, oldState.U, 0, oldState.F.Col(0), i, false)
      invariant ColWritten(newState.F, oldState.F, 0, oldState.D.Col(0), i, false)
      invariant ColWritten(newState.D, oldState.D, 0, oldState.B.Col(2).Reversed(), i, false)
      invariant ColWritten(newState.B, oldState.B, 2, oldState.U.Col(0).Reversed(), i, true)
    {
      newState := newState.(U := newState.U.With(i, 0, oldState.F.At(i, 0)));
      newState := newState.(F := newState.F.With(i, 0, oldState.D.At(i, 0)));
      newState := newState.(D := newState.D.With(i, 0, oldState.B.At(2 - i, 2)));
      newState := newState.(B := newState.B.With(2 - i, 2, oldState.U.At(i, 0)));
    }
    ColWrittenAll(newState.U, oldState.U, 0, oldState.F.Col(0), false);
    ColWrittenAll(newState.F, oldState.F, 0, oldState.D.Col(0), false);
    ColWrittenAll(newState.D, oldState.D, 0, oldState.B.Col(2).Reversed(), false);
    ColWrittenAll(newState.B, oldState.B, 2, oldState.U.Col(0).Reversed(), true);
  }

  /** `applyMove`'s `case 'R'` loop. */
  method CaseR(oldState: Cube) returns (newState: Cube)
    ensures newState == Apply(oldState, Move(Letter.R, Plain))
  {
    newState := oldState;
    newState := newState.(R := RotateFace(oldState.R, true));
    for i := 0 to 3
      invariant newState.R == RotateFace(oldState.R, true) && newState.L == oldState.L
      invariant ColWritten(newState.U, oldState.U, 2, oldState.F.Col(2), i, false)
      invariant ColWritten(newState.F, oldState.F, 2, oldState.D.Col(2), i, false)
      invariant ColWritten(newState.D, oldState.D, 2, oldState.B.Col(0).Reversed(), i, false)
      invariant ColWritten(newState.B, oldState.B, 0, oldState.U.Col(2).Reversed(), i, true)
    {
      newState := newState.(U := newState.U.With(i, 2, oldState.F.At(i, 2)));
      newState := newState.(F := newState.F.With(i, 2, oldState.D.At(i, 2)));
      newState := newState.(D := newState.D.With(i, 2, oldState.B.At(2 - i, 0)));
      newState := newState.(B := newState.B.With(2 - i, 0, oldState.U.At(i, 2)));
    }
    ColWrittenAll(newState.U, oldState.U, 2, oldState.F.Col(2), false);
    ColWrittenAll(newState.F, oldState.F, 2, oldState.D.Col(2), false);
    ColWrittenAll(newState.D, oldState.D, 2, oldState.B.Col(0).Reversed(), false);
    ColWrittenAll(newState.B, oldState.B, 0, oldState.U.Col(2).Reversed(), true);
  }

  /** `applyMove`'s `case 'R''` loop. */
  method CaseRPrime(oldState: Cube) returns (newState: Cube)
    ensures newState == Apply(oldState, Move(Letter.R, Prime))
  {
    newState := oldState;
    newState := newState.(R := RotateFace(oldState.R, false));
    for i := 0 to 3
      invariant newState.R == RotateFace(oldState.R, false) && newState.L == oldState.L
      invariant ColWritten(newState.U, oldState.U, 2, oldState.B.Col(0).Reversed(), i, false)
      invariant ColWritten(newState.B, oldState.B, 0, oldState.D.Col(2).Reversed(), i, true)
      invariant ColWritten(newState.D, oldState.D, 2, oldState.F.Col(2), i, false)
      invariant ColWritten(newState.F, oldState.F, 2, oldState.U.Col(2), i, false)
    {
      newState := newState.(U := newState.U.With(i, 2, oldState.B.At(2 - i, 0)));
      newState := newState.(B := newState.B.With(2 - i, 0, oldState.D.At(i, 2)));
      newState := newState.(D := newState.D.With(i, 2, oldState.F.At(i, 2)));
      newState := newState.(F := newState.F.With(i, 2, oldState.U.At(i, 2)));
    }
    ColWrittenAll(newState.U, oldState.U, 2, oldState.B.Col(0).Reversed(), false);
    ColWrittenAll(newState.B, oldState.B, 0, oldState.D.Col(2).Reversed(), true);
    ColWrittenAll(newState.D, oldState.D, 2, oldState.F.Col(2), false);
    ColWrittenAll(newState.F, oldState.F, 2, oldState.U.Col(2), false);
  }

  /** `applyMove`'s `case 'F'` loop. */
  method CaseF(oldState: Cube) returns (newState: Cube)
    ensures newState == Apply(oldState, Move(Letter.F, Plain))
  {
    newState := oldState;
    newState := newState.(F := RotateFace(oldState.F, true));
    for i := 0 to 3
      invariant newState.F == RotateFace(oldState.F, true) && newState.B == oldState.B
      invariant RowWritten(newState.U, oldState.U, 2, TurnRow(oldState.L.Col(2).Reversed(), 90), i, false)
      invariant ColWritten(newState.L, oldState.L, 2, TurnRow(oldState.D.GetRow(0), 90), i, true)
      invariant RowWritten(newState.D, oldState.D, 0, TurnRow(oldState.R.Col(0).Reversed(), 90), i, true)
      invariant ColWritten(newState.R, oldState.R, 0, TurnRow(oldState.U.GetRow(2), 90), i, false)
    {
      newState := newState.(U := newState.U.With(2, i, RotateSticker(oldState.L.At(2 - i, 2), 90)));
      newState := newState.(L := newState.L.With(2 - i, 2, RotateSticker(oldState.D.At(0, 2 - i), 90)));
      newState := newState.(D := newState.D.With(0, 2 - i, RotateSticker(oldState.R.At(i, 0), 90)));
      newState := newState.(R := newState.R.With(i, 0, RotateSticker(oldState.U.At(2, i), 90)));
    }
    RowWrittenAll(newState.U, oldState.U, 2, TurnRow(oldState.L.Col(2).Reversed(), 90), false);
    ColWrittenAll(newState.L, oldState.L, 2, TurnRow(oldState.D.GetRow(0), 90), true);
    RowWrittenAll(newState.D, oldState.D, 0, TurnRow(oldState.R.Col(0).Reversed(), 90), true);
    ColWrittenAll(newState.R, oldState.R, 0, TurnRow(oldState.U.GetRow(2), 90), false);
  }

  /** `applyMove`'s `case 'F''` loop. */
  method CaseFPrime(oldState: Cube) returns (newState: Cube)
    ensures newState == Apply(oldState, Move(Letter.F, Prime))
  {
    newState := oldState;
    newState := newState.(F := RotateFace(oldState.F, false));
    for i := 0 to 3
      invariant newState.F == RotateFace(oldState.F, false) && newState.B == oldState.B
      invariant RowWritten(newState.U, oldState.U, 2, TurnRow(oldState.R.Col(0), -90), i, false)
      invariant ColWritten(newState.R, oldState.R, 0, TurnRow(oldState.D.GetRow(0).Reversed(), -90), i, false)
      invariant RowWritten(newState.D, oldState.D, 0, TurnRow(oldState.L.Col(2), -90), i, true)
      invariant ColWritten(newState.L, oldState.L, 2, TurnRow(oldState.U.GetRow(2).Reversed(), -90), i, true)
    {
      newState := newState.(U := newState.U.With(2, i, RotateSticker(oldState.R.At(i, 0), -90)));
      newState := newState.(R := newState.R.With(i, 0, RotateSticker(oldState.D.At(0, 2 - i), -90)));
      newState := newState.(D := newState.D.With(0, 2 - i, RotateSticker(oldState.L.At(2 - i, 2), -90)));
      newState := newState.(L := newState.L.With(2 - i, 2, RotateSticker(oldState.U.At(2, i), -90)));
    }
    RowWrittenAll(newState.U, oldState.U, 2, TurnRow(oldState.R.Col(0), -90), false);
    ColWrittenAll(newState.R, oldState.R, 0, TurnRow(oldState.D.GetRow(0).Reversed(), -90), false);
    RowWrittenAll(newState.D, oldState.D, 0, TurnRow(oldState.L.Col(2), -90), true);
    ColWrittenAll(newState.L, oldState.L, 2, TurnRow(oldState.U.GetRow(2).Reversed(), -90), true);
  }

  /** `applyMove`'s `case 'B'` loop. */
  method CaseB(oldState: Cube) returns (newState: Cube)
    ensures newState == Apply(oldState, Move(Letter.B, Plain))
  {
    newState := oldState;
    newState := newState.(B := RotateFace(oldState.B, true));
    for i := 0 to 3
      invariant newState.B == RotateFace(oldState.B, true) && newState.F == oldState.F
      invariant RowWritten(newState.U, oldState.U, 0, TurnRow(oldState.R.Col(2), -90), i, false)
      invariant ColWritten(newState.R, oldState.R, 2, TurnRow(oldState.D.GetRow(2).Reversed(), -90), i, false)
      invariant RowWritten(newState.D, oldState.D, 2, TurnRow(oldState.L.Col(0), -90), i, true)
      invariant ColWritten(newState.L, oldState.L, 0, TurnRow(oldState.U.GetRow(0).Reversed(), -90), i, true)
    {
      newState := newState.(U := newState.U.With(0, i, RotateSticker(oldState.R.At(i, 2), -90)));
      newState := newState.(R := newState.R.With(i, 2, RotateSticker(oldState.D.At(2, 2 - i), -90)));
      newState := newState.(D := newState.D.With(2, 2 - i, RotateSticker(oldState.L.At(2 - i, 0), -90)));
      newState := newState.(L := newState.L.With(2 - i, 0, RotateSticker(oldState.U.At(0, i), -90)));
    }
    RowWrittenAll(newState.U, oldState.U, 0, TurnRow(oldState.R.Col(2), -90), false);
    ColWrittenAll(newState.R, oldState.R, 2, TurnRow(oldState.D.GetRow(2).Reversed(), -90), false);
    RowWrittenAll(newState.D, oldState.D, 2, TurnRow(oldState.L.Col(0), -90), true);
    ColWrittenAll(newState.L, oldState.L, 0, TurnRow(oldState.U.GetRow(0).Reversed(), -90), true);
  }

  /** `applyMove`'s `case 'B''` loop. */
  method CaseBPrime(oldState: Cube) returns (newState: Cube)
    ensures newState == Apply(oldState, Move(Letter.B, Prime))
  {
    newState := oldState;
    newState := newState.(B := RotateFace(oldState.B, false));
    for i := 0 to 3
      invariant newState.B == RotateFace(oldState.B, false) && newState.F == oldState.F
      invariant RowWritten(newState.U, oldState.U, 0, TurnRow(oldState.L.Col(0).Reversed(), 90), i, false)
      invariant ColWritten(newState.L, oldState.L, 0, TurnRow(oldState.D.GetRow(2), 90), i, true)
      invariant RowWritten(newState.D, oldState.D, 2, TurnRow(oldState.R.Col(2).Reversed(), 90), i, true)
      invariant ColWritten(newState.R, oldState.R, 2, TurnRow(oldState.U.GetRow(0), 90), i, false)
    {
      newState := newState.(U := newState.U.With(0, i, RotateSticker(oldState.L.At(2 - i, 0), 90)));
      newState := newState.(L := newState.L.With(2 - i, 0, RotateSticker(oldState.D.At(2, 2 - i), 90)));
      newState := newState.(D := newState.D.With(2, 2 - i, RotateSticker(oldState.R.At(i, 2), 90)));
      newState := newState.(R := newState.R.With(i, 2, RotateSticker(oldState.U.At(0, i), 90)));
    }
    RowWrittenAll(newState.U, oldState.U, 0, TurnRow(oldState.L.Col(0).Reversed(), 90), false);
    ColWrittenAll(newState.L, oldState.L, 0, TurnRow(oldState.D.GetRow(2), 90), true);
    RowWrittenAll(newState.D, oldState.D, 2, TurnRow(oldState.R.Col(2).Reversed(), 90), true);
    ColWrittenAll(newState.R, oldState.R, 2, TurnRow(oldState.U.GetRow(0), 90), false);
  }

  /** `applyMove`'s `case 'M'` loop. */
  method CaseM(oldState: Cube) returns (newState: Cube)
    ensures newState == Apply(oldState, Move(Letter.M, Plain))
  {
    newState := oldState;
    for i := 0 to 3
      invariant newState.L == oldState.L && newState.R == oldState.R
      invariant ColWritten(newState.U, oldState.U, 1, oldState.B.Col(1).Reversed(), i, false)
      invariant ColWritten(newState.B, oldState.B, 1, oldState.D.Col(1).Reversed(), i, true)
      invariant ColWritten(newState.D, oldState.D, 1, oldState.F.Col(1), i, false)
      invariant ColWritten(newState.F, oldState.F, 1, oldState.U.Col(1), i, false)
    {
      newState := newState.(U := newState.U.With(i, 1, oldState.B.At(2 - i, 1)));
      newState := newState.(B := newState.B.With(2 - i, 1, oldState.D.At(i, 1)));
      newState := newState.(D := newState.D.With(i, 1, oldState.F.At(i, 1)));
      newState := newState.(F := newState.F.With(i, 1, oldState.U.At(i, 1)));
    }
    ColWrittenAll(newState.U, oldState.U, 1, oldState.B.Col(1).Reversed(), false);
    ColWrittenAll(newState.B, oldState.B, 1, oldState.D.Col(1).Reversed(), true);
    ColWrittenAll(newState.D, oldState.D, 1, oldState.F.Col(1), false);
    ColWrittenAll(newState.F, oldState.F, 1, oldState.U.Col(1), false);
  }

  /** `applyMove`'s `case 'M''` loop. */
  method CaseMPrime(oldState: Cube) returns (newState: Cube)
    ensures newState == Apply(oldState, Move(Letter.M, Prime))
  {
    newState := oldState;
    for i := 0 to 3
      invariant newState.L == oldState.L && newState.R == oldState.R
      invariant ColWritten(newState.U, oldState.U, 1, oldState.F.Col(1), i, false)
      invariant ColWritten(newState.F, oldState.F, 1, oldState.D.Col(1), i, false)
      invariant ColWritten(newState.D, oldState.D, 1, oldState.B.Col(1).Reversed(), i, false)
      invariant ColWritten(newState.B, oldState.B, 1, oldState.U.Col(1).Reversed(), i, true)
    {
      newState := newState.(U := newState.U.With(i, 1, oldState.F.At(i, 1)));
      newState := newState.(F := newState.F.With(i, 1, oldState.D.At(i, 1)));
      newState := newState.(D := newState.D.With(i, 1, oldState.B.At(2 - i, 1)));
      newState := newState.(B := newState.B.With(2 - i, 1, oldState.U.At(i, 1)));
    }
    ColWrittenAll(newState.U, oldState.U, 1, oldState.F.Col(1), false);
    ColWrittenAll(newState.F, oldState.F, 1, oldState.D.Col(1), false);
    ColWrittenAll(newState.D, oldState.D, 1, oldState.B.Col(1).Reversed(), false);
    ColWrittenAll(newState.B, oldState.B, 1, oldState.U.Col(1).Reversed(), true);
  }

  /** `applyMove`'s `case 'S'` loop. */
  method CaseS(oldState: Cube) returns (newState: Cube)
    ensures newState == Apply(oldState, Move(Letter.S, Plain))
  {
    newState := oldState;
    for i := 0 to 3
      invariant newState.F == oldState.F && newState.B == oldState.B
      invariant RowWritten(newState.U, oldState.U, 1, TurnRow(oldState.L.Col(1).Reversed(), 90), i, false)
      invariant ColWritten(newState.L, oldState.L, 1, TurnRow(oldState.D.GetRow(1), 90), i, true)
      invariant RowWritten(newState.D, oldState.D, 1, TurnRow(oldState.R.Col(1).Reversed(), 90), i, true)
      invariant ColWritten(newState.R, oldState.R, 1, TurnRow(oldState.U.GetRow(1), 90), i, false)
    {
      newState := newState.(U := newState.U.With(1, i, RotateSticker(oldState.L.At(2 - i, 1), 90)));
      newState := newState.(L := newState.L.With(2 - i, 1, RotateSticker(oldState.D.At(1, 2 - i), 90)));
      newState := newState.(D := newState.D.With(1, 2 - i, RotateSticker(oldState.R.At(i, 1), 90)));
      newState := newState.(R := newState.R.With(i, 1, RotateSticker(oldState.U.At(1, i), 90)));
    }
    RowWrittenAll(newState.U, oldState.U, 1, TurnRow(oldState.L.Col(1).Reversed(), 90), false);
    ColWrittenAll(newState.L, oldState.L, 1, TurnRow(oldState.D.GetRow(1), 90), true);
    RowWrittenAll(newState.D, oldState.D, 1, TurnRow(oldState.R.Col(1).Reversed(), 90), true);
    ColWrittenAll(newState.R, oldState.R, 1, TurnRow(oldState.U.GetRow(1), 90), false);
  }

  /** `applyMove`'s `case 'S''` loop. */
  method CaseSPrime(oldState: Cube) returns (newState: Cube)
    ensures newState == Apply(oldState, Move(Letter.S, Prime))
  {
    newState := oldState;
    for i := 0 to 3
      invariant newState.F == oldState.F && newState.B == oldState.B
      invariant RowWritten(newState.U, oldState.U, 1, TurnRow(oldState.R.Col(1), -90), i, false)
      invariant ColWritten(newState.R, oldState.R, 1, TurnRow(oldState.D.GetRow(1).Reversed(), -90), i, false)
      invariant RowWritten(newState.D, oldState.D, 1, TurnRow(oldState.L.Col(1), -90), i, true)
      invariant ColWritten(newState.L, oldState.L, 1, TurnRow(oldState.U.GetRow(1).Reversed(), -90), i, true)
    {
      newState := newState.(U := newState.U.With(1, i, RotateSticker(oldState.R.At(i, 1), -90)));
      newState := newState.(R := newState.R.With(i, 1, RotateSticker(oldState.D.At(1, 2 - i), -90)));
      newState := newState.(D := newState.D.With(1, 2 - i, RotateSticker(oldState.L.At(2 - i, 1), -90)));
      newState := newState.(L := newState.L.With(2 - i, 1, RotateSticker(oldState.U.At(1, i), -90)));
    }
    RowWrittenAll(newState.U, oldState.U, 1, TurnRow(oldState.R.Col(1), -90), false);
    ColWrittenAll(newState.R, oldState.R, 1, TurnRow(oldState.D.GetRow(1).Reversed(), -90), false);
    RowWrittenAll(newState.D, oldState.D, 1, TurnRow(oldState.L.Col(1), -90), true);
    ColWrittenAll(newState.L, oldState.L, 1, TurnRow(oldState.U.GetRow(1).Reversed(), -90), true);
  }

  /** The engine as `applyMove` runs it: `newState` starts as a copy of the state and
      the case for the move overwrites the face plate and the strips, cell by cell
      in a loop, reading only from the untouched copy `oldState`. */
  method ApplyMove(state: Cube, move: Move) returns (result: Cube)
    ensures result == Apply(state, move)
    decreases Rank(move), 0
  {
    var newState := state;
    var oldState := state;
    match move {
    // Face rotations
    case Move(U, Plain) =>
      newState := CaseU(oldState);
    case Move(U, Prime) =>
      newState := CaseUPrime(oldState);
    case Move(D, Plain) =>
      newState := CaseD(oldState);
    case Move(D, Prime) =>
      newState := CaseDPrime(oldState);
    case Move(L, Plain) =>
      newState := CaseL(oldState);
    case Move(L, Prime) =>
      newState := CaseLPrime(oldState);
    case Move(R, Plain) =>
      newState := CaseR(oldState);
    case Move(R, Prime) =>
      newState := CaseRPrime(oldState);
    case Move(F, Plain) =>
      newState := CaseF(oldState);
    case Move(F, Prime) =>
      newState := CaseFPrime(oldState);
    case Move(B, Plain) =>
      newState := CaseB(oldState);
    case Move(B, Prime) =>
      newState := CaseBPrime(oldState);
    // Middle slice rotations
    case Move(E, Plain) =>
      newState := CaseE(oldState);
    case Move(E, Prime) =>
      newState := CaseEPrime(oldState);
    case Move(M, Plain) =>
      newState := CaseM(oldState);
    case Move(M, Prime) =>
      newState := CaseMPrime(oldState);
    case Move(S, Plain) =>
      newState := CaseS(oldState);
    case Move(S, Prime) =>
      newState := CaseSPrime(oldState);
    // Whole cube rotations
    case Move(z, Plain) => result := RunMoves(state, [Move(Letter.U, Plain), Move(Letter.E, Prime), Move(Letter.D, Prime)]); return;
    case Move(z, Prime) => result := RunMoves(state, [Move(Letter.U, Prime), Move(Letter.E, Plain), Move(Letter.D, Plain)]); return;
    case Move(y, Plain) => result := RunMoves(state, [Move(Letter.R, Plain), Move(Letter.M, Prime), Move(Letter.L, Prime)]); return;
    case Move(y, Prime) => result := RunMoves(state, [Move(Letter.R, Prime), Move(Letter.M, Plain), Move(Letter.L, Plain)]); return;
    case Move(x, Plain) => result := RunMoves(state, [Move(Letter.F, Plain), Move(Letter.S, Plain), Move(Letter.B, Prime)]); return;
    case Move(x, Prime) => result := RunMoves(state, [Move(Letter.F, Prime), Move(Letter.S, Prime), Move(Letter.B, Plain)]); return;
    case _ => return state;
    }
    result := newState;
  }

  /** `applyMoves`: the moves run through the engine one after another. */
  method RunMoves(state: Cube, moves: seq<Move>) returns (result: Cube)
    ensures result == ApplyMoves(state, moves)
    decreases MaxRank(moves), 1
  {
    result := state;
    for i := 0 to |moves|
      invariant ApplyMoves(result, moves[i..]) == ApplyMoves(state, moves)
    {
      MaxRankBounds(moves, i);
      result := ApplyMove(result, moves[i]);
      assert moves[i..][1..] == moves[i + 1..];
    }
    assert moves[|moves|..] == [];
  }

  lemma MaxRankBounds(ms: seq<Move>, i: nat)
    requires i < |ms|
    ensures Rank(ms[i]) <= MaxRank(ms)
  {
    if i > 0 {
      MaxRankBounds(ms[1..], i - 1);
    }
  }
}
