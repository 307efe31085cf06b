/** The solved cube: every face one colour, every glyph upright. */
module Constants {
  import opened Types
  import opened CubeLogic
  import opened CubeProperties
  import opened CubeInvariants
  import opened CubeFrame
  import opened CubeSequences

  /** A 3x3 face of one colour whose glyphs all sit at angle 0. */
  function CreateFace(c: Color): (f: Face)
    ensures forall i: Idx, j: Idx :: f.At(i, j) == Sticker(c, 0)
  {
    var st := Sticker(c, 0);
    var row := Row(st, st, st);
    Face(row, row, row)
  }

  /** The colour each face shows when the cube is solved. */
  function SolvedColor(n: FaceName): Color {
    match n
    case U => Color.Y
    case D => Color.W
    case L => Color.B
    case R => Color.G
    case F => Color.R
    case B => Color.O
  }

  /** The solved state the application starts from and resets to. */
  const Initial: Cube :=
    Cube(CreateFace(Color.Y), CreateFace(Color.W), CreateFace(Color.B),
         CreateFace(Color.G), CreateFace(Color.R), CreateFace(Color.O))

  /** Every face of the solved cube is uniform: each of its nine stickers shows the
      face's colour with its glyph at angle 0. */
  lemma InitialUniform(p: Pos)
    ensures Cell(Initial, p) == Sticker(SolvedColor(p.face), 0)
  {
    match p.face
    case U => assert Initial.Get(p.face) == CreateFace(Color.Y);
    case D => assert Initial.Get(p.face) == CreateFace(Color.W);
    case L => assert Initial.Get(p.face) == CreateFace(Color.B);
    case R => assert Initial.Get(p.face) == CreateFace(Color.G);
    case F => assert Initial.Get(p.face) == CreateFace(Color.R);
    case B => assert Initial.Get(p.face) == CreateFace(Color.O);
  }

  /** The six faces of the solved cube show six different colours, so every colour is
      on exactly one face. */
  lemma SolvedColorsDistinct(a: FaceName, b: FaceName)
    ensures SolvedColor(a) == SolvedColor(b) <==> a == b
  {
  }

  /** Every colour appears on some face of the solved cube. */
  lemma SolvedColorsCover(c: Color)
    ensures exists n: FaceName :: SolvedColor(n) == c
  {
    match c
    case R => assert SolvedColor(FaceName.F) == c;
    case G => assert SolvedColor(FaceName.R) == c;
    case B => assert SolvedColor(FaceName.L) == c;
    case Y => assert SolvedColor(FaceName.U) == c;
    case O => assert SolvedColor(FaceName.B) == c;
    case W => assert SolvedColor(FaceName.D) == c;
  }

  /** A uniform face holds nine stickers of its colour and none of any other. */
  lemma CreateFaceCount(d: Color, c: Color)
    ensures FaceCount(CreateFace(d), c) == if d == c then 9 else 0
  {
  }

  /** Nine stickers of each colour on the solved cube. */
  lemma InitialCount(c: Color)
    ensures Count(Initial, c) == 9
  {
    CreateFaceCount(Color.Y, c);
    CreateFaceCount(Color.W, c);
    CreateFaceCount(Color.B, c);
    CreateFaceCount(Color.G, c);
    CreateFaceCount(Color.R, c);
    CreateFaceCount(Color.O, c);
  }

  /** From the solved cube, every formula leaves exactly nine stickers of each colour. */
  lemma ReachableCount(ms: seq<Move>, c: Color)
    ensures Count(ApplyMoves(Initial, ms), c) == 9
  {
    InitialCount(c);
    ApplyMovesConserveColours(Initial, ms, c);
  }

  /** The solved cube's glyphs all sit at quarter angles. */
  lemma InitialQuarter()
    ensures QuarterCube(Initial)
  {
  }

  /** Every state reached from the solved cube keeps its glyphs at 0, 90, 180 or 270. */
  lemma ReachableQuarter(ms: seq<Move>)
    ensures QuarterCube(ApplyMoves(Initial, ms))
  {
    InitialQuarter();
    QuarterIsNormal(Initial);
    ApplyMovesKeepAngles(Initial, ms);
  }

  /** Any formula run from the solved cube is undone by its inverse formula. */
  lemma ReachableUndo(ms: seq<Move>)
    ensures ApplyMoves(ApplyMoves(Initial, ms), InverseSequence(ms)) == Initial
  {
    InitialQuarter();
    QuarterIsNormal(Initial);
    UndoSequence(Initial, ms);
  }

  /** Slice turns do move centres: after `M` the front centre shows the colour of the
      top face, after `E` the front centre shows the left face's colour, and after `S`
      the top centre shows the left face's colour. */
  lemma SliceMovesCentre()
    ensures Cell(Apply(Initial, Move(Letter.M, Plain)), Centre(FaceName.F)).color == Color.Y
    ensures Cell(Apply(Initial, Move(Letter.E, Plain)), Centre(FaceName.F)).color == Color.B
    ensures Cell(Apply(Initial, Move(Letter.S, Plain)), Centre(FaceName.U)).color == Color.B
  {
  }
}
