/** The data model of the cube: colours, face names, stickers, 3x3 faces,
    the six-face cube state and the closed vocabulary of moves. */
module Types {

  /** The six sticker colours. */
  datatype Color = R | G | B | Y | O | W

  /** The six faces: Up, Down, Left, Right, Front, Back. */
  datatype FaceName = U | D | L | R | F | B

  /** A sticker carries its colour and the angle, in degrees, of the glyph printed on it.
      The `id` field declared for stickers is never populated and is not modelled. */
  datatype Sticker = Sticker(color: Color, rotation: int)

  /** A row or column index of a 3x3 face. */
  type Idx = i: int | 0 <= i < 3

  /** Three stickers, read left to right (a row) or top to bottom (a column). */
  datatype Row = Row(c0: Sticker, c1: Sticker, c2: Sticker) {

    function At(c: Idx): Sticker {
      if c == 0 then c0 else if c == 1 then c1 else c2
    }

    function Reversed(): Row {
      Row(c2, c1, c0)
    }
  }

  /** A face is three rows; `At(r, c)` is the sticker at row r, column c. */
  datatype Face = Face(r0: Row, r1: Row, r2: Row) {

    function GetRow(r: Idx): Row {
      if r == 0 then r0 else if r == 1 then r1 else r2
    }

    function At(r: Idx, c: Idx): Sticker {
      (if r == 0 then r0 else if r == 1 then r1 else r2).At(c)
    }

    function Col(c: Idx): Row {
      Row(r0.At(c), r1.At(c), r2.At(c))
    }

    /** The face with row `r` replaced by `row`. */
    function WithRow(r: Idx, row: Row): Face {
      if r == 0 then this.(r0 := row) else if r == 1 then this.(r1 := row) else this.(r2 := row)
    }

    /** The face with column `c` replaced by `col` (read top to bottom). */
    function WithCol(c: Idx, col: Row): Face {
      Face(WithAt(r0, c, col.c0), WithAt(r1, c, col.c1), WithAt(r2, c, col.c2))
    }

    /** The face with the single sticker at (r, c) replaced by `x`. */
    function With(r: Idx, c: Idx, x: Sticker): (f: Face)
      ensures forall i: Idx, j: Idx :: f.At(i, j) == if i == r && j == c then x else At(i, j)
    {
      if r == 0 then this.(r0 := WithAt(r0, c, x))
      else if r == 1 then this.(r1 := WithAt(r1, c, x))
      else this.(r2 := WithAt(r2, c, x))
    }
  }

  /** `row` with the sticker at column c replaced by `x`. */
  function WithAt(row: Row, c: Idx, x: Sticker): (r: Row)
    ensures forall k: Idx :: r.At(k) == if k == c then x else row.At(k)
  {
    if c == 0 then row.(c0 := x) else if c == 1 then row.(c1 := x) else row.(c2 := x)
  }

  /** Two faces that agree on every cell are equal. */
  lemma FaceExt(f: Face, g: Face)
    requires forall i: Idx, j: Idx :: f.At(i, j) == g.At(i, j)
    ensures f == g
  {
    assert f.At(0, 0) == g.At(0, 0) && f.At(0, 1) == g.At(0, 1) && f.At(0, 2) == g.At(0, 2);
    assert f.At(1, 0) == g.At(1, 0) && f.At(1, 1) == g.At(1, 1) && f.At(1, 2) == g.At(1, 2);
    assert f.At(2, 0) == g.At(2, 0) && f.At(2, 1) == g.At(2, 1) && f.At(2, 2) == g.At(2, 2);
  }

  /** Cell by cell: what reading a row or column, reversing a strip, and
      replacing a row, a column or one cell do. */
  lemma ReversedAt(row: Row)
    ensures forall k: Idx :: row.Reversed().At(k) == row.At(2 - k)
  {
  }

  lemma GetRowAt(f: Face, r: Idx)
    ensures forall c: Idx :: f.GetRow(r).At(c) == f.At(r, c)
  {
  }

  lemma ColAt(f: Face, c: Idx)
    ensures forall r: Idx :: f.Col(c).At(r) == f.At(r, c)
  {
  }

  lemma WithRowAt(f: Face, r: Idx, row: Row)
    ensures forall i: Idx, j: Idx :: f.WithRow(r, row).At(i, j) == if i == r then row.At(j) else f.At(i, j)
  {
  }

  lemma WithColAt(f: Face, c: Idx, col: Row)
    ensures forall i: Idx, j: Idx :: f.WithCol(c, col).At(i, j) == if j == c then col.At(i) else f.At(i, j)
  {
  }

  /** The cube state assigns a face to each of the six face names. */
  datatype Cube = Cube(U: Face, D: Face, L: Face, R: Face, F: Face, B: Face) {

    function Get(n: FaceName): Face {
      match n
      case U => this.U
      case D => this.D
      case L => this.L
      case R => this.R
      case F => this.F
      case B => this.B
    }
  }

  /** A sticker position: a face and a cell of it. */
  datatype Pos = Pos(face: FaceName, row: Idx, col: Idx)

  function Cell(s: Cube, p: Pos): Sticker {
    s.Get(p.face).At(p.row, p.col)
  }

  /** The letter of a move: a face (U D L R F B), a middle slice (M E S) or a
      whole-cube axis (x y z). */
  datatype Letter = U | D | L | R | F | B | M | E | S | x | y | z

  /** The suffix of a move symbol: none, a prime (') or a 2. */
  datatype Kind = Plain | Prime | Double

  /** The character that writes a letter in a formula. */
  function LetterChar(l: Letter): char {
    match l
    case U => 'U'  case D => 'D'  case L => 'L'  case R => 'R'  case F => 'F'  case B => 'B'
    case M => 'M'  case E => 'E'  case S => 'S'  case x => 'x'  case y => 'y'  case z => 'z'
  }

  /** Distinct letters are written with distinct characters. */
  lemma LetterCharInjective(a: Letter, b: Letter)
    ensures LetterChar(a) == LetterChar(b) ==> a == b
  {
  }

  /** A move symbol: one of 12 letters, plain, primed or doubled (36 symbols). */
  datatype Move = Move(letter: Letter, kind: Kind) {

    predicate IsPlain() {
      kind == Plain
    }

    predicate IsPrime() {
      kind == Prime
    }

    predicate IsDouble() {
      kind == Double
    }

    /** x, y and z turn the whole cube. */
    predicate IsWholeCube() {
      letter == x || letter == y || letter == z
    }

    /** The face turns and slice turns, plain or primed: the 18 moves with their own table. */
    predicate IsLayerTurn() {
      !IsDouble() && !IsWholeCube()
    }

    /** The written form of the move, as it appears in a formula. */
    function Symbol(): (t: string)
      ensures |t| == (if IsPlain() then 1 else 2)
      ensures t[0] == LetterChar(letter)
      ensures IsPrime() ==> t[1] == '\''
      ensures IsDouble() ==> t[1] == '2'
    {
      [LetterChar(letter)] + match kind case Plain => "" case Prime => "'" case Double => "2"
    }

    /** Plain and primed forms swapped; doubled symbols map to themselves. */
    function Inverse(): (m: Move)
      ensures m.letter == letter
      ensures IsPlain() <==> m.IsPrime()
      ensures IsPrime() <==> m.IsPlain()
      ensures IsDouble() <==> m.IsDouble()
    {
      match kind
      case Plain => this.(kind := Prime)
      case Prime => this.(kind := Plain)
      case Double => this
    }
  }

  /** The written form identifies the move: no two symbols are spelled alike. */
  lemma SymbolInjective(m: Move, n: Move)
    requires m.Symbol() == n.Symbol()
    ensures m == n
  {
    LetterCharInjective(m.letter, n.letter);
    assert m.Symbol()[0] == n.Symbol()[0];
  }

  /** Inverting twice gives the move back. */
  lemma InverseInvolution(m: Move)
    ensures m.Inverse().Inverse() == m
  {
  }

  /** Every colour. */
  const AllColors: seq<Color> := [Color.R, Color.G, Color.B, Color.Y, Color.O, Color.W]

  /** Colour has exactly six values, each listed once. */
  lemma ColorsAreSix()
    ensures |AllColors| == 6
    ensures forall c: Color :: c in AllColors
    ensures forall i, j :: 0 <= i < j < |AllColors| ==> AllColors[i] != AllColors[j]
  {
    forall c: Color ensures c in AllColors {
      match c
      case R => assert c == AllColors[0];
      case G => assert c == AllColors[1];
      case B => assert c == AllColors[2];
      case Y => assert c == AllColors[3];
      case O => assert c == AllColors[4];
      case W => assert c == AllColors[5];
    }
  }
}
