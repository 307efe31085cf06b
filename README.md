# Cube move engine

This project models the move engine of a browser Rubik's-cube trainer and proves properties of it in Dafny.

A cube state has six faces (U, D, L, R, F, B). Each face is a 3x3 grid of stickers. A sticker has one of six colours and a `rotation`: the angle, in degrees, of a directional glyph printed on it.

`applyMove` in `services/cubeLogic.ts` maps a state and one of 36 move names to a new state:
- 18 quarter turns of the face and slice layers `U D L R F B E M S`, clockwise (plain) or counter-clockwise (primed, with `'`). Each is a fixed table of sticker moves. Some stickers have their glyph turned by ±90 through `rotateSticker`, and face turns also turn the face plate through `rotateFace`.
- 6 whole-cube turns `x y z` and their primes. Each runs a three-move formula through `applyMoves`.
- 12 doubled names (`U2`, `x2`, …). No case handles them, so they return the state unchanged.

`parseFormula` in `App.tsx` turns a typed formula into a list of moves:
- It trims the text and splits it on whitespace.
- It expands a two-character token ending in `2` into two copies of its upper-cased first character, when that is a valid move.
- It keeps any other token that is a valid move and drops the rest.

The keyboard handler maps a key, upper-cased, to a letter; with shift held it picks the primed move. `constants.ts` builds the solved starting state.

Modules:
- `Types` (`types.dfy`): colours, faces, stickers, the cube, and moves as a letter with a kind. It also holds each move's printed name and its inverse.
- `CubeLogic` (`cube_logic.dfy`): the JavaScript `%`, `rotateSticker` and `rotateFace`. It specifies every move table as a function. `ApplyMove` is a method that performs each table's cell writes on a copy of the state and is proved equal to that specification. `RunMoves` is the fold of `applyMoves`.
- `CubeProperties`, `CubeInvariants`, `CubeFrame`, `CubeGroup`, `CubeSequences`: what the moves guarantee.
  - Inverse moves cancel.
  - Four quarter turns are the identity.
  - Parallel layers commute.
  - Glyph angles stay in [0, 360).
  - Colour counts are conserved.
  - Cells outside a layer are untouched.
  - Face turns keep centres.
  - Any formula is undone by its reversed inverse.
- `CubePermutation` (`cube_permutation.dfy`): the source position of every position under each move. The map is a bijection, and each move shows at every position the colour that was at its source, so every move permutes the 54 stickers.
- `Constants` (`constants.dfy`): `createFace`, the initial state, and what holds of every state reached from it.
- `App` (`app.dfy`): `trim`, `split(/\s+/)`, the token rules of `parseFormula` (the loop is a method proved against a function), the key table, and the round trip from a list of quarter turns to text and back.

Doubled moves differ from the usual convention that `U2` is `U` applied twice:
- `applyMove` ignores a doubled name.
- Only `parseFormula` gives a doubled token its meaning, by pushing the base move twice.
- The model follows the code here: `CubeLogic.DoubledMovesIgnored` and `App.DoubledSymbol` state both halves.
- Because the parser upper-cases the first character, `x2`, `y2` and `z2` in a formula become `X`, `Y`, `Z`. Those are not move names, so the tokens are dropped.

## Model

| member | source | states |
|---|---|---|
| Types.Move.Symbol | types.ts:16-31 | a move is spelled as its letter's character, followed by nothing for a quarter turn, `'` for the counter-clockwise turn and `2` for the doubled turn |
| Types.LetterCharInjective | types.ts:16-31 | the twelve move letters are twelve different characters |
| Types.SymbolInjective | types.ts:16-31 | no two of the 36 move names are spelled alike, so a name determines its move |
| Types.Move.Inverse | types.ts:16-31 | the inverse of a quarter turn is the counter-clockwise turn of the same letter and back; a doubled move is its own inverse |
| Types.InverseInvolution | types.ts:16-31 | inverting a move twice gives the move back |
| Types.ColorsAreSix | types.ts:2 | there are exactly six sticker colours |
| CubeLogic.JsRem360 | services/cubeLogic.ts:28 | JavaScript `%` by 360: the result lies strictly between -360 and 360, has the dividend's sign and differs from it by a multiple of 360 |
| CubeLogic.RotateSticker | services/cubeLogic.ts:26-29 | the colour is kept; from an angle in [0, 360) and a shift of at most 360 either way the new angle is in [0, 360) and equals the old angle plus the shift, up to one whole turn |
| CubeLogic.RotateFace | services/cubeLogic.ts:3-24 | clockwise, the sticker at row r, column c comes from row 2-c, column r with its glyph turned +90; counter-clockwise it comes from row c, column 2-r turned -90 |
| CubeLogic.ApplyOfU | services/cubeLogic.ts:39-48 | the move `U` selects the clockwise table, `U'` the counter-clockwise table, and `U2` falls through to the default and leaves the state as it is |
| CubeLogic.ApplyOfD | services/cubeLogic.ts:49-58 | the move `D` selects the clockwise table, `D'` the counter-clockwise table, and `D2` falls through to the default and leaves the state as it is |
| CubeLogic.ApplyOfL | services/cubeLogic.ts:59-76 | the move `L` selects the clockwise table, `L'` the counter-clockwise table, and `L2` falls through to the default and leaves the state as it is |
| CubeLogic.ApplyOfR | services/cubeLogic.ts:77-94 | the move `R` selects the clockwise table, `R'` the counter-clockwise table, and `R2` falls through to the default and leaves the state as it is |
| CubeLogic.ApplyOfF | services/cubeLogic.ts:95-112 | the move `F` selects the clockwise table, `F'` the counter-clockwise table, and `F2` falls through to the default and leaves the state as it is |
| CubeLogic.ApplyOfB | services/cubeLogic.ts:113-130 | the move `B` selects the clockwise table, `B'` the counter-clockwise table, and `B2` falls through to the default and leaves the state as it is |
| CubeLogic.ApplyOfE | services/cubeLogic.ts:133-140 | the move `E` selects the clockwise table, `E'` the counter-clockwise table, and `E2` falls through to the default and leaves the state as it is |
| CubeLogic.ApplyOfM | services/cubeLogic.ts:141-156 | the move `M` selects the clockwise table, `M'` the counter-clockwise table, and `M2` falls through to the default and leaves the state as it is |
| CubeLogic.ApplyOfS | services/cubeLogic.ts:157-172 | the move `S` selects the clockwise table, `S'` the counter-clockwise table, and `S2` falls through to the default and leaves the state as it is |
| CubeLogic.ApplyOfZ | services/cubeLogic.ts:175-176 | `z` and `z'` run their three-move formulas through `applyMoves` from the unchanged state; `z2` leaves the state as it is |
| CubeLogic.ApplyOfY | services/cubeLogic.ts:177-178 | `y` and `y'` run their three-move formulas through `applyMoves` from the unchanged state; `y2` leaves the state as it is |
| CubeLogic.ApplyOfX | services/cubeLogic.ts:179-180 | `x` and `x'` run their three-move formulas through `applyMoves` from the unchanged state; `x2` leaves the state as it is |
| CubeLogic.DoubledMovesIgnored | services/cubeLogic.ts:181-182 | a doubled move names no case of `applyMove`, so it returns the state unchanged |
| CubeLogic.CaseU | services/cubeLogic.ts:39-43 | the cell-by-cell writes of case `U`, applied to a copy of the state, produce exactly the specified `U` turn |
| CubeLogic.CaseUPrime | services/cubeLogic.ts:44-48 | the cell-by-cell writes of case `U'` produce exactly the specified `U'` turn |
| CubeLogic.CaseD | services/cubeLogic.ts:49-53 | the cell-by-cell writes of case `D`, applied to a copy of the state, produce exactly the specified `D` turn |
| CubeLogic.CaseDPrime | services/cubeLogic.ts:54-58 | the cell-by-cell writes of case `D'` produce exactly the specified `D'` turn |
| CubeLogic.CaseL | services/cubeLogic.ts:59-67 | the cell-by-cell writes of case `L`, applied to a copy of the state, produce exactly the specified `L` turn |
| CubeLogic.CaseLPrime | services/cubeLogic.ts:68-76 | the cell-by-cell writes of case `L'` produce exactly the specified `L'` turn |
| CubeLogic.CaseR | services/cubeLogic.ts:77-85 | the cell-by-cell writes of case `R`, applied to a copy of the state, produce exactly the specified `R` turn |
| CubeLogic.CaseRPrime | services/cubeLogic.ts:86-94 | the cell-by-cell writes of case `R'` produce exactly the specified `R'` turn |
| CubeLogic.CaseF | services/cubeLogic.ts:95-103 | the cell-by-cell writes of case `F`, applied to a copy of the state, produce exactly the specified `F` turn |
| CubeLogic.CaseFPrime | services/cubeLogic.ts:104-112 | the cell-by-cell writes of case `F'` produce exactly the specified `F'` turn |
| CubeLogic.CaseB | services/cubeLogic.ts:113-121 | the cell-by-cell writes of case `B`, applied to a copy of the state, produce exactly the specified `B` turn |
| CubeLogic.CaseBPrime | services/cubeLogic.ts:122-130 | the cell-by-cell writes of case `B'` produce exactly the specified `B'` turn |
| CubeLogic.CaseE | services/cubeLogic.ts:133-136 | the cell-by-cell writes of case `E`, applied to a copy of the state, produce exactly the specified `E` turn |
| CubeLogic.CaseEPrime | services/cubeLogic.ts:137-140 | the cell-by-cell writes of case `E'` produce exactly the specified `E'` turn |
| CubeLogic.CaseM | services/cubeLogic.ts:141-148 | the cell-by-cell writes of case `M`, applied to a copy of the state, produce exactly the specified `M` turn |
| CubeLogic.CaseMPrime | services/cubeLogic.ts:149-156 | the cell-by-cell writes of case `M'` produce exactly the specified `M'` turn |
| CubeLogic.CaseS | services/cubeLogic.ts:157-164 | the cell-by-cell writes of case `S`, applied to a copy of the state, produce exactly the specified `S` turn |
| CubeLogic.CaseSPrime | services/cubeLogic.ts:165-172 | the cell-by-cell writes of case `S'` produce exactly the specified `S'` turn |
| CubeLogic.ApplyMove | services/cubeLogic.ts:33-185 | `applyMove` returns the specified result for every one of the 36 move names: the 18 layer-turn tables, the six whole-cube formulas and the unchanged state for doubled moves |
| CubeLogic.RunMoves | services/cubeLogic.ts:31 | `applyMoves` folds `applyMove` over the list from left to right |
| CubeProperties.RotateStickerQuarter | services/cubeLogic.ts:26-29 | a glyph at 0, 90, 180 or 270 stays at one of those angles after a turn of 90 either way |
| CubeProperties.RotateStickerInverse | services/cubeLogic.ts:26-29 | on an angle in [0, 360), turning a sticker by 90 one way and then the other restores it exactly |
| CubeProperties.RotateStickerFour | services/cubeLogic.ts:26-29 | on an angle in [0, 360), four turns of 90 in the same direction restore the sticker |
| CubeProperties.TurnRowInverse | services/cubeLogic.ts:95-103 | a strip of three stickers turned by 90 one way and then the other is restored |
| CubeProperties.TurnRowQuarter | services/cubeLogic.ts:95-103 | turning a strip by 90 keeps its glyphs at quarter angles |
| CubeProperties.RotateFaceInverse | services/cubeLogic.ts:3-24 | on a face whose angles lie in [0, 360), a clockwise plate turn followed by a counter-clockwise one, or the other order, gives the face back |
| CubeProperties.RotateFaceQuarter | services/cubeLogic.ts:3-24 | a plate turn keeps a face's glyphs at quarter angles |
| CubeProperties.RotateFaceFour | services/cubeLogic.ts:3-24 | four plate turns in the same direction give the face back |
| CubeProperties.UndoU | services/cubeLogic.ts:39-48 | on a cube whose angles lie in [0, 360), `U'` after `U` restores the state exactly, colours and glyph angles |
| CubeProperties.UndoUPrime | services/cubeLogic.ts:39-48 | on such a cube `U` after `U'` restores the state exactly |
| CubeProperties.UndoD | services/cubeLogic.ts:49-58 | on a cube whose angles lie in [0, 360), `D'` after `D` restores the state exactly, colours and glyph angles |
| CubeProperties.UndoDPrime | services/cubeLogic.ts:49-58 | on such a cube `D` after `D'` restores the state exactly |
| CubeProperties.UndoL | services/cubeLogic.ts:59-76 | on a cube whose angles lie in [0, 360), `L'` after `L` restores the state exactly, colours and glyph angles |
| CubeProperties.UndoLPrime | services/cubeLogic.ts:59-76 | on such a cube `L` after `L'` restores the state exactly |
| CubeProperties.UndoR | services/cubeLogic.ts:77-94 | on a cube whose angles lie in [0, 360), `R'` after `R` restores the state exactly, colours and glyph angles |
| CubeProperties.UndoRPrime | services/cubeLogic.ts:77-94 | on such a cube `R` after `R'` restores the state exactly |
| CubeProperties.UndoF | services/cubeLogic.ts:95-112 | on a cube whose angles lie in [0, 360), `F'` after `F` restores the state exactly, colours and glyph angles |
| CubeProperties.UndoFPrime | services/cubeLogic.ts:95-112 | on such a cube `F` after `F'` restores the state exactly |
| CubeProperties.UndoB | services/cubeLogic.ts:113-130 | on a cube whose angles lie in [0, 360), `B'` after `B` restores the state exactly, colours and glyph angles |
| CubeProperties.UndoBPrime | services/cubeLogic.ts:113-130 | on such a cube `B` after `B'` restores the state exactly |
| CubeProperties.UndoE | services/cubeLogic.ts:133-140 | on any cube, `E'` after `E` restores the state exactly, colours and glyph angles (the `E` table turns no glyph) |
| CubeProperties.UndoEPrime | services/cubeLogic.ts:133-140 | on any cube, `E` after `E'` restores the state exactly |
| CubeProperties.UndoM | services/cubeLogic.ts:141-156 | on any cube, `M'` after `M` restores the state exactly, colours and glyph angles (the `M` table turns no glyph) |
| CubeProperties.UndoMPrime | services/cubeLogic.ts:141-156 | on any cube, `M` after `M'` restores the state exactly |
| CubeProperties.SliceUndoneOnAnyState | services/cubeLogic.ts:133-156 | on any cube, every `E` or `M` move, plain or primed, followed by its inverse restores the state exactly |
| CubeProperties.UndoS | services/cubeLogic.ts:157-172 | on a cube whose angles lie in [0, 360), `S'` after `S` restores the state exactly, colours and glyph angles |
| CubeProperties.UndoSPrime | services/cubeLogic.ts:157-172 | on such a cube `S` after `S'` restores the state exactly |
| CubeProperties.PlainThenPrime | services/cubeLogic.ts:39-172 | for every layer letter, the counter-clockwise case undoes the clockwise one |
| CubeProperties.PrimeThenPlain | services/cubeLogic.ts:39-172 | for every layer letter, the clockwise case undoes the counter-clockwise one |
| CubeProperties.InverseCancels | services/cubeLogic.ts:39-172 | every face or slice quarter turn followed by its inverse leaves a cube with angles in [0, 360) unchanged |
| CubeInvariants.AnglesU | services/cubeLogic.ts:39-48 | both `U` tables keep every glyph angle in [0, 360), and keep quarter angles quarter |
| CubeInvariants.AnglesD | services/cubeLogic.ts:49-58 | both `D` tables keep every glyph angle in [0, 360), and keep quarter angles quarter |
| CubeInvariants.AnglesL | services/cubeLogic.ts:59-76 | both `L` tables keep every glyph angle in [0, 360), and keep quarter angles quarter |
| CubeInvariants.AnglesR | services/cubeLogic.ts:77-94 | both `R` tables keep every glyph angle in [0, 360), and keep quarter angles quarter |
| CubeInvariants.AnglesF | services/cubeLogic.ts:95-112 | both `F` tables keep every glyph angle in [0, 360), and keep quarter angles quarter |
| CubeInvariants.AnglesB | services/cubeLogic.ts:113-130 | both `B` tables keep every glyph angle in [0, 360), and keep quarter angles quarter |
| CubeInvariants.AnglesE | services/cubeLogic.ts:133-140 | both `E` tables keep every glyph angle in [0, 360), and keep quarter angles quarter |
| CubeInvariants.AnglesM | services/cubeLogic.ts:141-156 | both `M` tables keep every glyph angle in [0, 360), and keep quarter angles quarter |
| CubeInvariants.AnglesS | services/cubeLogic.ts:157-172 | both `S` tables keep every glyph angle in [0, 360), and keep quarter angles quarter |
| CubeInvariants.ApplyKeepsAngles | services/cubeLogic.ts:33-185 | every move keeps all glyph angles in [0, 360), and keeps angles at 0, 90, 180 or 270 |
| CubeInvariants.LayerTurnKeepsAngles | services/cubeLogic.ts:39-172 | every face and slice turn keeps the glyph-angle invariants |
| CubeInvariants.WholeCubeKeepsAngles | services/cubeLogic.ts:175-180 | every whole-cube turn keeps the glyph-angle invariants |
| CubeInvariants.ApplyMovesKeepAngles | services/cubeLogic.ts:31 | any list of moves keeps the glyph-angle invariants |
| CubeInvariants.RotateFaceCount | services/cubeLogic.ts:3-24 | a plate turn keeps the number of stickers of each colour on the face |
| CubeInvariants.ColoursU | services/cubeLogic.ts:39-43 | the `U` table moves stickers without creating or losing any: each colour's count is unchanged |
| CubeInvariants.ColoursUPrime | services/cubeLogic.ts:44-48 | the `U'` table keeps each colour's count |
| CubeInvariants.ColoursD | services/cubeLogic.ts:49-53 | the `D` table moves stickers without creating or losing any: each colour's count is unchanged |
| CubeInvariants.ColoursDPrime | services/cubeLogic.ts:54-58 | the `D'` table keeps each colour's count |
| CubeInvariants.ColoursL | services/cubeLogic.ts:59-67 | the `L` table moves stickers without creating or losing any: each colour's count is unchanged |
| CubeInvariants.ColoursLPrime | services/cubeLogic.ts:68-76 | the `L'` table keeps each colour's count |
| CubeInvariants.ColoursR | services/cubeLogic.ts:77-85 | the `R` table moves stickers without creating or losing any: each colour's count is unchanged |
| CubeInvariants.ColoursRPrime | services/cubeLogic.ts:86-94 | the `R'` table keeps each colour's count |
| CubeInvariants.ColoursF | services/cubeLogic.ts:95-103 | the `F` table moves stickers without creating or losing any: each colour's count is unchanged |
| CubeInvariants.ColoursFPrime | services/cubeLogic.ts:104-112 | the `F'` table keeps each colour's count |
| CubeInvariants.ColoursB | services/cubeLogic.ts:113-121 | the `B` table moves stickers without creating or losing any: each colour's count is unchanged |
| CubeInvariants.ColoursBPrime | services/cubeLogic.ts:122-130 | the `B'` table keeps each colour's count |
| CubeInvariants.ColoursE | services/cubeLogic.ts:133-136 | the `E` table moves stickers without creating or losing any: each colour's count is unchanged |
| CubeInvariants.ColoursEPrime | services/cubeLogic.ts:137-140 | the `E'` table keeps each colour's count |
| CubeInvariants.ColoursM | services/cubeLogic.ts:141-148 | the `M` table moves stickers without creating or losing any: each colour's count is unchanged |
| CubeInvariants.ColoursMPrime | services/cubeLogic.ts:149-156 | the `M'` table keeps each colour's count |
| CubeInvariants.ColoursS | services/cubeLogic.ts:157-164 | the `S` table moves stickers without creating or losing any: each colour's count is unchanged |
| CubeInvariants.ColoursSPrime | services/cubeLogic.ts:165-172 | the `S'` table keeps each colour's count |
| CubeInvariants.ApplyConservesColours | services/cubeLogic.ts:33-185 | every move keeps the number of stickers of each colour |
| CubeInvariants.WholeCubeConservesColours | services/cubeLogic.ts:175-180 | every whole-cube turn keeps the number of stickers of each colour |
| CubeInvariants.ApplyMovesConserveColours | services/cubeLogic.ts:31 | any list of moves keeps the number of stickers of each colour |
| CubeFrame.FrameU | services/cubeLogic.ts:39-48 | both `U` tables leave every cell outside the `U` layer as it was |
| CubeFrame.FrameD | services/cubeLogic.ts:49-58 | both `D` tables leave every cell outside the `D` layer as it was |
| CubeFrame.FrameL | services/cubeLogic.ts:59-76 | both `L` tables leave every cell outside the `L` layer as it was |
| CubeFrame.FrameR | services/cubeLogic.ts:77-94 | both `R` tables leave every cell outside the `R` layer as it was |
| CubeFrame.FrameF | services/cubeLogic.ts:95-112 | both `F` tables leave every cell outside the `F` layer as it was |
| CubeFrame.FrameB | services/cubeLogic.ts:113-130 | both `B` tables leave every cell outside the `B` layer as it was |
| CubeFrame.FrameE | services/cubeLogic.ts:133-140 | both `E` tables leave every cell outside the `E` layer as it was |
| CubeFrame.FrameM | services/cubeLogic.ts:141-156 | both `M` tables leave every cell outside the `M` layer as it was |
| CubeFrame.FrameS | services/cubeLogic.ts:157-172 | both `S` tables leave every cell outside the `S` layer as it was |
| CubeFrame.ApplyLeavesOthers | services/cubeLogic.ts:33-185 | a move changes no cell outside its layer |
| CubeFrame.ApplyMovesLeaveOthers | services/cubeLogic.ts:31 | a list of moves whose layers all miss a cell leaves that cell as it was |
| CubeFrame.CentresU | services/cubeLogic.ts:39-48 | both `U` tables keep the colour of every face's centre |
| CubeFrame.CentresD | services/cubeLogic.ts:49-58 | both `D` tables keep the colour of every face's centre |
| CubeFrame.CentresL | services/cubeLogic.ts:59-76 | both `L` tables keep the colour of every face's centre |
| CubeFrame.CentresR | services/cubeLogic.ts:77-94 | both `R` tables keep the colour of every face's centre |
| CubeFrame.CentresF | services/cubeLogic.ts:95-112 | both `F` tables keep the colour of every face's centre |
| CubeFrame.CentresB | services/cubeLogic.ts:113-130 | both `B` tables keep the colour of every face's centre |
| CubeFrame.FaceTurnKeepsCentres | services/cubeLogic.ts:39-130 | no face turn changes the colour of any centre |
| CubeGroup.OrderU | services/cubeLogic.ts:39-43 | four `U` turns restore the cube, colours and glyph angles (angles in [0, 360) where the table turns glyphs) |
| CubeGroup.OrderUPrime | services/cubeLogic.ts:44-48 | four `U'` turns restore the cube |
| CubeGroup.OrderD | services/cubeLogic.ts:49-53 | four `D` turns restore the cube, colours and glyph angles (angles in [0, 360) where the table turns glyphs) |
| CubeGroup.OrderDPrime | services/cubeLogic.ts:54-58 | four `D'` turns restore the cube |
| CubeGroup.OrderL | services/cubeLogic.ts:59-67 | four `L` turns restore the cube, colours and glyph angles (angles in [0, 360) where the table turns glyphs) |
| CubeGroup.OrderLPrime | services/cubeLogic.ts:68-76 | four `L'` turns restore the cube |
| CubeGroup.OrderR | services/cubeLogic.ts:77-85 | four `R` turns restore the cube, colours and glyph angles (angles in [0, 360) where the table turns glyphs) |
| CubeGroup.OrderRPrime | services/cubeLogic.ts:86-94 | four `R'` turns restore the cube |
| CubeGroup.OrderF | services/cubeLogic.ts:95-103 | four `F` turns restore the cube, colours and glyph angles (angles in [0, 360) where the table turns glyphs) |
| CubeGroup.OrderFPrime | services/cubeLogic.ts:104-112 | four `F'` turns restore the cube |
| CubeGroup.OrderB | services/cubeLogic.ts:113-121 | four `B` turns restore the cube, colours and glyph angles (angles in [0, 360) where the table turns glyphs) |
| CubeGroup.OrderBPrime | services/cubeLogic.ts:122-130 | four `B'` turns restore the cube |
| CubeGroup.OrderE | services/cubeLogic.ts:133-136 | four `E` turns restore the cube, colours and glyph angles (angles in [0, 360) where the table turns glyphs) |
| CubeGroup.OrderEPrime | services/cubeLogic.ts:137-140 | four `E'` turns restore the cube |
| CubeGroup.OrderM | services/cubeLogic.ts:141-148 | four `M` turns restore the cube, colours and glyph angles (angles in [0, 360) where the table turns glyphs) |
| CubeGroup.OrderMPrime | services/cubeLogic.ts:149-156 | four `M'` turns restore the cube |
| CubeGroup.OrderS | services/cubeLogic.ts:157-164 | four `S` turns restore the cube, colours and glyph angles (angles in [0, 360) where the table turns glyphs) |
| CubeGroup.OrderSPrime | services/cubeLogic.ts:165-172 | four `S'` turns restore the cube |
| CubeGroup.ApplyFour | services/cubeLogic.ts:39-182 | every face or slice move applied four times returns a cube with angles in [0, 360) to its exact prior state |
| CubeGroup.CommuteUD | services/cubeLogic.ts:39-58 | turns of the parallel layers `U` and `D` commute, in every combination of directions |
| CubeGroup.CommuteUE | services/cubeLogic.ts:39-140 | turns of the parallel layers `U` and `E` commute, in every combination of directions |
| CubeGroup.CommuteDE | services/cubeLogic.ts:49-140 | turns of the parallel layers `D` and `E` commute, in every combination of directions |
| CubeGroup.CommuteLR | services/cubeLogic.ts:59-94 | turns of the parallel layers `L` and `R` commute, in every combination of directions |
| CubeGroup.CommuteLM | services/cubeLogic.ts:59-156 | turns of the parallel layers `L` and `M` commute, in every combination of directions |
| CubeGroup.CommuteRM | services/cubeLogic.ts:77-156 | turns of the parallel layers `R` and `M` commute, in every combination of directions |
| CubeGroup.CommuteFB | services/cubeLogic.ts:95-130 | turns of the parallel layers `F` and `B` commute, in every combination of directions |
| CubeGroup.CommuteFS | services/cubeLogic.ts:95-172 | turns of the parallel layers `F` and `S` commute, in every combination of directions |
| CubeGroup.CommuteBS | services/cubeLogic.ts:113-172 | turns of the parallel layers `B` and `S` commute, in every combination of directions |
| CubeGroup.ZFormulaTurns | services/cubeLogic.ts:175 | the formula `U`, `E'`, `D'` is those three layer turns in that order |
| CubeGroup.ZPrimeFormulaTurns | services/cubeLogic.ts:176 | the formula `U'`, `E`, `D` is those three layer turns in that order |
| CubeGroup.YFormulaTurns | services/cubeLogic.ts:177 | the formula `R`, `M'`, `L'` is those three layer turns in that order |
| CubeGroup.YPrimeFormulaTurns | services/cubeLogic.ts:178 | the formula `R'`, `M`, `L` is those three layer turns in that order |
| CubeGroup.XFormulaTurns | services/cubeLogic.ts:179 | the formula `F`, `S`, `B'` is those three layer turns in that order |
| CubeGroup.XPrimeFormulaTurns | services/cubeLogic.ts:180 | the formula `F'`, `S'`, `B` is those three layer turns in that order |
| CubeGroup.ZTurnsUndone | services/cubeLogic.ts:175-176 | the `z'` formula undoes the `z` formula on a cube with angles in [0, 360) |
| CubeGroup.ZPrimeTurnsUndone | services/cubeLogic.ts:175-176 | the `z` formula undoes the `z'` formula |
| CubeGroup.YTurnsUndone | services/cubeLogic.ts:177-178 | the `y'` formula undoes the `y` formula on a cube with angles in [0, 360) |
| CubeGroup.YPrimeTurnsUndone | services/cubeLogic.ts:177-178 | the `y` formula undoes the `y'` formula |
| CubeGroup.XTurnsUndone | services/cubeLogic.ts:179-180 | the `x'` formula undoes the `x` formula on a cube with angles in [0, 360) |
| CubeGroup.XPrimeTurnsUndone | services/cubeLogic.ts:179-180 | the `x` formula undoes the `x'` formula |
| CubeGroup.WholeCubeInverseCancels | services/cubeLogic.ts:175-182 | every whole-cube move followed by its inverse leaves a cube with angles in [0, 360) unchanged |
| CubeGroup.EveryInverseCancels | services/cubeLogic.ts:33-185 | every one of the 36 moves followed by its inverse leaves a cube with angles in [0, 360) unchanged |
| CubeSequences.ApplyMovesAppend | services/cubeLogic.ts:31 | running two lists one after the other is running their concatenation |
| CubeSequences.InverseSequence | services/cubeLogic.ts:31 | the inverse formula has the same length and lists the inverses of the moves in reverse order |
| CubeSequences.UndoSequence | services/cubeLogic.ts:31 | any formula run on a cube with angles in [0, 360) is undone by its inverse formula |
| CubePermutation.PlateInverse | services/cubeLogic.ts:3-24 | the clockwise plate turn's source cell, traced back through the counter-clockwise turn, is the cell itself, in both directions |
| CubePermutation.RowOriginInverse | services/cubeLogic.ts:39-58 | the cycle of one row of the four side faces, traced one way and then the other, returns every position, and keeps positions on and off U and D |
| CubePermutation.ColOriginInverse | services/cubeLogic.ts:59-94 | the cycle of one column through U, F, D and (upside down) B, traced one way and then the other, returns every position, and keeps positions on and off L and R |
| CubePermutation.RingOriginInverse | services/cubeLogic.ts:95-130 | the ring cycle through U, R, D and L at one depth behind the front, traced one way and then the other, returns every position, and keeps positions on and off F and B |
| CubePermutation.LayerOriginInverse | services/cubeLogic.ts:39-172 | for every face and slice letter, the source map of the counter-clockwise turn undoes that of the clockwise turn, and the other way round |
| CubePermutation.WholeCubeZBijective | services/cubeLogic.ts:175-176 | the source map of `z` and of `z'` has the reverse composition of its three layer maps as a two-sided inverse |
| CubePermutation.WholeCubeYBijective | services/cubeLogic.ts:177-178 | the source map of `y` and of `y'` has the reverse composition of its three layer maps as a two-sided inverse |
| CubePermutation.WholeCubeXBijective | services/cubeLogic.ts:179-180 | the source map of `x` and of `x'` has the reverse composition of its three layer maps as a two-sided inverse |
| CubePermutation.OriginBijective | services/cubeLogic.ts:33-185 | for every one of the 36 moves, the map from a position to the position whose colour the move shows there has a two-sided inverse: each move permutes the 54 positions |
| CubePermutation.OriginInjective | services/cubeLogic.ts:33-185 | two positions take their colour from the same position exactly when they are the same position |
| CubePermutation.ColoursFromU | services/cubeLogic.ts:39-43 | the `U` table shows at every position the colour that was at its source position |
| CubePermutation.ColoursFromUPrime | services/cubeLogic.ts:44-48 | the `U'` table shows at every position the colour that was at its source position |
| CubePermutation.ColoursFromD | services/cubeLogic.ts:49-53 | the `D` table shows at every position the colour that was at its source position |
| CubePermutation.ColoursFromDPrime | services/cubeLogic.ts:54-58 | the `D'` table shows at every position the colour that was at its source position |
| CubePermutation.ColoursFromE | services/cubeLogic.ts:133-136 | the `E` table shows at every position the colour that was at its source position |
| CubePermutation.ColoursFromEPrime | services/cubeLogic.ts:137-140 | the `E'` table shows at every position the colour that was at its source position |
| CubePermutation.ColoursFromL | services/cubeLogic.ts:59-67 | the `L` table shows at every position the colour that was at its source position |
| CubePermutation.ColoursFromLPrime | services/cubeLogic.ts:68-76 | the `L'` table shows at every position the colour that was at its source position |
| CubePermutation.ColoursFromM | services/cubeLogic.ts:141-148 | the `M` table shows at every position the colour that was at its source position |
| CubePermutation.ColoursFromMPrime | services/cubeLogic.ts:149-156 | the `M'` table shows at every position the colour that was at its source position |
| CubePermutation.ColoursFromR | services/cubeLogic.ts:77-85 | the `R` table shows at every position the colour that was at its source position |
| CubePermutation.ColoursFromRPrime | services/cubeLogic.ts:86-94 | the `R'` table shows at every position the colour that was at its source position |
| CubePermutation.ColoursFromF | services/cubeLogic.ts:95-103 | the `F` table shows at every position the colour that was at its source position |
| CubePermutation.ColoursFromFPrime | services/cubeLogic.ts:104-112 | the `F'` table shows at every position the colour that was at its source position |
| CubePermutation.ColoursFromS | services/cubeLogic.ts:157-164 | the `S` table shows at every position the colour that was at its source position |
| CubePermutation.ColoursFromSPrime | services/cubeLogic.ts:165-172 | the `S'` table shows at every position the colour that was at its source position |
| CubePermutation.ColoursFromB | services/cubeLogic.ts:113-121 | the `B` table shows at every position the colour that was at its source position |
| CubePermutation.ColoursFromBPrime | services/cubeLogic.ts:122-130 | the `B'` table shows at every position the colour that was at its source position |
| CubePermutation.VerticalShowsOrigin | services/cubeLogic.ts:39-58 | every `U`, `D` or `E` move, in either direction, shows at every position the colour of its source |
| CubePermutation.SidewaysShowsOrigin | services/cubeLogic.ts:59-94 | every `L`, `M` or `R` move shows at every position the colour of its source (the `M` table at lines 141-156 included) |
| CubePermutation.FrontalShowsOrigin | services/cubeLogic.ts:95-130 | every `F`, `S` or `B` move shows at every position the colour of its source (the `S` table at lines 157-172 included) |
| CubePermutation.LayerTurnShowsOrigin | services/cubeLogic.ts:39-172 | every face or slice quarter turn shows at every position the colour of its source |
| CubePermutation.WholeCubeOrigins | services/cubeLogic.ts:175-180 | the source map of `z`, `y` and `x` (either direction) is that of the last of its three layer turns, then the middle one, then the first |
| CubePermutation.ZTurnsShowOrigin | services/cubeLogic.ts:175 | the three layer turns of `z` show at every position the colour of the composed source |
| CubePermutation.ZPrimeTurnsShowOrigin | services/cubeLogic.ts:176 | the three layer turns of `z'` show at every position the colour of the composed source |
| CubePermutation.WholeCubeZShowsOrigin | services/cubeLogic.ts:175-176 | `z` and `z'` show at every position the colour of its source |
| CubePermutation.YTurnsShowOrigin | services/cubeLogic.ts:177 | the three layer turns of `y` show at every position the colour of the composed source |
| CubePermutation.YPrimeTurnsShowOrigin | services/cubeLogic.ts:178 | the three layer turns of `y'` show at every position the colour of the composed source |
| CubePermutation.WholeCubeYShowsOrigin | services/cubeLogic.ts:177-178 | `y` and `y'` show at every position the colour of its source |
| CubePermutation.XTurnsShowOrigin | services/cubeLogic.ts:179 | the three layer turns of `x` show at every position the colour of the composed source |
| CubePermutation.XPrimeTurnsShowOrigin | services/cubeLogic.ts:180 | the three layer turns of `x'` show at every position the colour of the composed source |
| CubePermutation.WholeCubeXShowsOrigin | services/cubeLogic.ts:179-180 | `x` and `x'` show at every position the colour of its source |
| CubePermutation.ApplyShowsOrigin | services/cubeLogic.ts:33-185 | every one of the 36 moves shows at every position the colour that was at its source position; with `OriginBijective`, every move permutes the stickers' colours |
| CubePermutation.ApplyMovesShowOrigins | services/cubeLogic.ts:31 | a list of moves shows at every position the colour at the composed source, the first move's map applied last |
| CubePermutation.OriginOutsideLayer | services/cubeLogic.ts:33-185 | a position outside the layer a move turns is its own source |
| Constants.CreateFace | constants.ts:21-24 | all nine stickers of a new face carry the given colour with the glyph at angle 0 |
| Constants.InitialUniform | constants.ts:26-33 | every cell of the initial state shows its face's solved colour (U yellow, D white, L blue, R green, F red, B orange) at angle 0 |
| Constants.SolvedColorsDistinct | constants.ts:26-33 | two faces of the initial state share a colour exactly when they are the same face |
| Constants.SolvedColorsCover | constants.ts:26-33 | every colour is on some face of the initial state |
| Constants.InitialCount | constants.ts:26-33 | the initial state has nine stickers of each colour |
| Constants.ReachableCount | constants.ts:26-33 | every state reached from the initial state by moves has nine stickers of each colour |
| Constants.InitialQuarter | constants.ts:23 | the initial state's glyphs are all at quarter angles |
| Constants.ReachableQuarter | constants.ts:26-33 | every state reached from the initial state keeps its glyphs at 0, 90, 180 or 270 |
| Constants.ReachableUndo | constants.ts:26-33 | any formula run from the initial state is undone by its inverse formula |
| Constants.SliceMovesCentre | services/cubeLogic.ts:133-164 | from the initial state, `M` moves the top centre onto the front, `E` the left centre onto the front and `S` the left centre onto the top: every slice turn moves centres |
| App.TrimStart | App.tsx:67 | `trim` drops a prefix made only of whitespace and stops at the first other character |
| App.TrimEnd | App.tsx:67 | `trim` drops a suffix made only of whitespace and stops at the last other character |
| App.Split | App.tsx:67 | `split(/\s+/)` yields at least one piece, no piece contains whitespace, and the pieces joined with single spaces are the text with each whitespace run squeezed to one space |
| App.SplitDetermined | App.tsx:67 | any non-empty list of whitespace-free pieces that joins, with single spaces, to the squeezed text is exactly the result of `split(/\s+/)`: the pieces are determined |
| App.SqueezeWord | App.tsx:67 | squeezing leaves a whitespace-free prefix untouched |
| App.SymbolMove | App.tsx:62-65 | a token is accepted as a move only if it spells that move's name, and never as a doubled move |
| App.SymbolMoveComplete | App.tsx:62-65 | the 24 names of quarter turns are all accepted |
| App.ParseToken | App.tsx:70-82 | one token yields at most two moves and never a doubled move; a single move is the one the token names; two moves come only from a two-character token ending in `2` and are twice the move named by its upper-cased first character; the token yields nothing exactly when it is neither a move name nor such a valid doubled form |
| App.ParseSymbol | App.tsx:70-82 | the name of every plain or primed move reads back as that move alone |
| App.ParseTokens | App.tsx:70-82 | the parsed list has at most two moves per token and no doubled move |
| App.ParseTokensAppend | App.tsx:70-82 | tokens are parsed independently and in order |
| App.ReadToken | App.tsx:73-80 | the body of the loop pushes exactly the moves specified for the token |
| App.ParseFormula | App.tsx:61-83 | `parseFormula` returns the concatenation of the moves of every token of the trimmed and split formula, at most two per token, none doubled |
| App.BlankFormula | App.tsx:67-71 | a formula of whitespace splits into one empty token and yields no moves |
| App.DoubledSymbol | App.tsx:73-77 | a doubled layer token `X2` becomes two `X` moves; a doubled whole-cube token is dropped because its upper-cased letter is no move |
| App.TokenExamples | App.tsx:73-80 | `u2` becomes two `U` moves, while `u`, `U'2` and `x'2` are dropped and `x` is kept |
| App.Symbols | App.tsx:61-83 | the names of a list of moves, one per move, in order |
| App.SplitJoin | App.tsx:67 | splitting a space-separated list of move names gives back the names |
| App.ParseJoin | App.tsx:61-83 | writing a list of quarter turns as names separated by spaces and parsing it gives back the list |
| App.SymbolsParse | App.tsx:70-82 | parsing the names of a list of quarter turns gives back the list |
| App.KeyChar | App.tsx:140-147 | the key for a letter is the upper case of the letter's character, so `x`, `y`, `z` are reached by X, Y, Z |
| App.KeyMove | App.tsx:149-154 | a key press yields the plain move without shift and the primed move with shift |
| App.KeyMoveExactly | App.tsx:140-154 | a key press yields a move exactly when the key is one character whose upper case is that move's key and the shift state matches its direction |
| App.KeyboardCoversSymbols | App.tsx:143-154 | every quarter turn can be typed, and its name is also accepted in a formula |

## Left out

- The sticker `id` field (declared in `types.ts` but never filled in by `createFace`) and everything built on it, such as piece identities in the views.
- The `JSON.parse(JSON.stringify(...))` deep copies. States are immutable values here, so copying is the identity; the cell writes of each case are performed on a local copy of the state.
- Glyph angles are modelled as unbounded integers rather than JavaScript numbers. Every angle reached is a multiple of 90 below 360, so no floating-point effect arises.
- Rendering, animation, timers, the undo history, shuffling with `Math.random`, the graph projection and the colour palette: user interface, clock and randomness outside the move engine.
- The keyboard handler's guards (ignoring keys while animating or while an input field has focus) and `preventDefault`: browser event plumbing.
- App.UpperChar: `toUpperCase` is modelled for ASCII letters and `ſ` (which upper-cases to `S`) only. Every other character upper-cases to something that is not a move letter, so parsing and key mapping are unaffected. Case mappings that change a string's length are not modelled.
- Strings are sequences of Unicode characters, not UTF-16 code units. A token holding a character outside the basic plane has a different `length` in JavaScript, but no such token is a move name in either reading, so the parsed result is the same.
- CubeProperties.InverseCancels: like the undo lemmas of the six face turns and of `S`, it requires glyph angles in [0, 360) (`NormalCube`). Every state reached from the initial state meets that (`Constants.ReachableQuarter`). The angle update `(angle + delta + 360) % 360` of `rotateSticker` and `rotateFace` keeps an angle only up to its sign and a multiple of 360, so from an out-of-range angle the round trip can change the number: a glyph at 360 on the `U` face reads 0 after `U` then `U'`, and one at -90 reads 270. The `E` and `M` undo lemmas (`CubeProperties.SliceUndoneOnAnyState`) and the four-turn lemmas of those slices hold on any cube.
- CubeGroup.EveryInverseCancels: requires glyph angles in [0, 360), for the same reason as `CubeProperties.InverseCancels`.
- CubeSequences.UndoSequence: requires glyph angles in [0, 360), for the same reason as `CubeProperties.InverseCancels`.
- CubeGroup.ApplyFour: covers face and slice moves only. The order of the whole-cube turns `x`, `y`, `z` is not proved.
- CubeFrame.FaceTurnKeepsCentres: states that centre colours are kept, not centre glyph angles, since a face turn spins its own centre's glyph.
