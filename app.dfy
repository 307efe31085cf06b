/** The two ways the application turns user input into moves: the formula box, whose
    text is split on whitespace and read token by token, and the keyboard, where a
    letter key issues a move and Shift primes it. */
module App {
  import opened Types

  datatype Option<T> = None | Some(value: T)

  // ---------------------------------------------------------------------------
  // Whitespace, trimming and splitting, as JavaScript's `trim` and `split(/\s+/)`

  /** JavaScript's white space and line terminators: what `\s` and `trim` remove. */
  predicate IsSpace(ch: char) {
    ch == '\t' || ch == '\n' || ch == '\U{B}' || ch == '\U{C}' || ch == '\r' || ch == ' '
    || ch == '\U{A0}' || ch == '\U{1680}' || ('\U{2000}' <= ch <= '\U{200A}')
    || ch == '\U{2028}' || ch == '\U{2029}' || ch == '\U{202F}' || ch == '\U{205F}'
    || ch == '\U{3000}' || ch == '\U{FEFF}'
  }

  /** A piece of text with no whitespace in it. */
  predicate IsWord(t: string) {
    forall k :: 0 <= k < |t| ==> !IsSpace(t[k])
  }

  /** The text without its leading whitespace. */
  function TrimStart(s: string): (r: string)
    ensures |r| <= |s| && r == s[|s| - |r|..]
    ensures forall k :: 0 <= k < |s| - |r| ==> IsSpace(s[k])
    ensures r == [] || !IsSpace(r[0])
  {
    if s != [] && IsSpace(s[0]) then TrimStart(s[1..]) else s
  }

  /** The text without its trailing whitespace. */
  function TrimEnd(s: string): (r: string)
    ensures |r| <= |s| && r == s[..|r|]
    ensures forall k :: |r| <= k < |s| ==> IsSpace(s[k])
    ensures r == [] || !IsSpace(r[|r| - 1])
  {
    if s != [] && IsSpace(s[|s| - 1]) then TrimEnd(s[..|s| - 1]) else s
  }

  /** `trim`: both ends stripped of whitespace. */
  function Trim(s: string): string {
    TrimEnd(TrimStart(s))
  }

  /** A text that neither starts nor ends with whitespace is its own trimmed form. */
  lemma TrimUnpadded(s: string)
    requires s != [] && !IsSpace(s[0]) && !IsSpace(s[|s| - 1])
    ensures Trim(s) == s
  {
  }

  /** Where the first whitespace character sits, or the length when there is none. */
  function FirstSpace(s: string): (i: nat)
    ensures i <= |s|
    ensures IsWord(s[..i])
    ensures i < |s| ==> IsSpace(s[i])
  {
    if s == [] || IsSpace(s[0]) then 0
    else
      var i := 1 + FirstSpace(s[1..]);
      assert s[..i] == [s[0]] + s[1..][..i - 1];
      i
  }

  /** The text with every maximal run of whitespace replaced by a single space. */
  function Squeeze(s: string): string
    decreases |s|
  {
    if s == [] then []
    else if IsSpace(s[0]) then " " + Squeeze(TrimStart(s[1..]))
    else [s[0]] + Squeeze(s[1..])
  }

  /** The pieces written out with one space between neighbours. */
  function Unsplit(r: seq<string>): string {
    if r == [] then [] else if |r| == 1 then r[0] else r[0] + " " + Unsplit(r[1..])
  }

  /** Text without whitespace passes through `Squeeze` unchanged. */
  lemma {:induction false} SqueezeWord(w: string, t: string)
    requires IsWord(w)
    ensures Squeeze(w + t) == w + Squeeze(t)
    decreases |w|
  {
    if w == [] {
      assert w + t == t;
    } else {
      assert (w + t)[0] == w[0];
      assert (w + t)[1..] == w[1..] + t;
      SqueezeWord(w[1..], t);
    }
  }

  /** Squeezing a word followed by whitespace keeps the word and one space, and
      squeezes what follows the whitespace run. */
  lemma SqueezeAfterWord(w: string, t: string)
    requires IsWord(w) && t != [] && IsSpace(t[0])
    ensures Squeeze(w + t) == w + " " + Squeeze(TrimStart(t))
  {
    SqueezeWord(w, t);
  }

  /** The same at the first whitespace character of a text. */
  lemma SqueezeAtSpace(s: string, i: nat)
    requires i < |s| && IsWord(s[..i]) && IsSpace(s[i])
    ensures Squeeze(s) == s[..i] + " " + Squeeze(TrimStart(s[i..]))
  {
    var w, t := s[..i], s[i..];
    assert w + t == s;
    SqueezeAfterWord(w, t);
  }

  /** Writing out a first piece in front of at least one more. */
  lemma UnsplitCons(w: string, rest: seq<string>)
    requires rest != []
    ensures Unsplit([w] + rest) == w + " " + Unsplit(rest)
  {
    assert ([w] + rest)[1..] == rest;
  }

  /** A text without whitespace is its own squeezed form. */
  lemma SqueezeOfWord(w: string)
    requires IsWord(w)
    ensures Squeeze(w) == w
  {
    SqueezeWord(w, []);
    assert w + [] == w;
  }

  /** One step of `Split`: a first word in front of pieces that write out the
      squeezed remainder writes out the whole squeezed text. */
  lemma SplitStep(s: string, i: nat, rest: seq<string>)
    requires i < |s| && IsWord(s[..i]) && IsSpace(s[i])
    requires rest != [] && Unsplit(rest) == Squeeze(TrimStart(s[i..]))
    ensures Unsplit([s[..i]] + rest) == Squeeze(s)
  {
    SqueezeAtSpace(s, i);
    UnsplitCons(s[..i], rest);
  }

  /** `split(/\s+/)`: the pieces between maximal runs of whitespace. A leading or
      trailing run yields an empty piece, and the empty text yields one empty piece.
      The pieces, written out with single spaces, are the text with each run of
      whitespace squeezed to one space (by `SplitDetermined`, this fixes the pieces). */
  function Split(s: string): (r: seq<string>)
    ensures |r| >= 1
    ensures forall j :: 0 <= j < |r| ==> IsWord(r[j])
    ensures Unsplit(r) == Squeeze(s)
    decreases |s|
  {
    var i := FirstSpace(s);
    if i == |s| then
      SqueezeOfWord(s);
      [s]
    else
      var rest := Split(TrimStart(s[i..]));
      SplitStep(s, i, rest);
      [s[..i]] + rest
  }

  /** Where the first piece ends in the written-out pieces, and what follows it. */
  lemma UnsplitShape(a: seq<string>)
    requires a != [] && forall j :: 0 <= j < |a| ==> IsWord(a[j])
    ensures |a[0]| <= |Unsplit(a)| && Unsplit(a)[..|a[0]|] == a[0]
    ensures FirstSpace(Unsplit(a)) == |a[0]|
    ensures |a| == 1 <==> |Unsplit(a)| == |a[0]|
    ensures |a| > 1 ==> |a[0]| < |Unsplit(a)| && Unsplit(a)[|a[0]| + 1..] == Unsplit(a[1..])
  {
    if |a| > 1 {
      var rest := " " + Unsplit(a[1..]);
      assert Unsplit(a) == a[0] + rest;
      FirstSpaceAfterWord(a[0], rest);
      assert (a[0] + rest)[|a[0]| + 1..] == Unsplit(a[1..]);
    }
  }

  /** Two lists of whitespace-free pieces that write out to the same text are equal. */
  lemma {:induction false} UnsplitInjective(a: seq<string>, b: seq<string>)
    requires a != [] && forall j :: 0 <= j < |a| ==> IsWord(a[j])
    requires b != [] && forall j :: 0 <= j < |b| ==> IsWord(b[j])
    requires Unsplit(a) == Unsplit(b)
    ensures a == b
    decreases |a|
  {
    UnsplitShape(a);
    UnsplitShape(b);
    if |a| > 1 {
      assert forall j :: 0 <= j < |a| - 1 ==> a[1..][j] == a[j + 1];
      assert forall j :: 0 <= j < |b| - 1 ==> b[1..][j] == b[j + 1];
      UnsplitInjective(a[1..], b[1..]);
      assert a == [a[0]] + a[1..];
      assert b == [b[0]] + b[1..];
    }
  }

  /** `Split`'s contract fixes its result: any list of whitespace-free pieces that
      writes out to the squeezed text is the list `Split` returns. */
  lemma SplitDetermined(s: string, r: seq<string>)
    requires r != [] && forall j :: 0 <= j < |r| ==> IsWord(r[j])
    requires Unsplit(r) == Squeeze(s)
    ensures r == Split(s)
  {
    UnsplitInjective(r, Split(s));
  }

  /** The tokens the formula box reads. */
  function Tokens(formula: string): seq<string> {
    Split(Trim(formula))
  }

  // ---------------------------------------------------------------------------
  // Symbols

  /** The letter a character writes, if any. */
  function CharLetter(ch: char): (r: Option<Letter>)
    ensures r.Some? ==> LetterChar(r.value) == ch
  {
    match ch
    case 'U' => Some(Letter.U)  case 'D' => Some(Letter.D)  case 'L' => Some(Letter.L)
    case 'R' => Some(Letter.R)  case 'F' => Some(Letter.F)  case 'B' => Some(Letter.B)
    case 'M' => Some(Letter.M)  case 'E' => Some(Letter.E)  case 'S' => Some(Letter.S)
    case 'x' => Some(Letter.x)  case 'y' => Some(Letter.y)  case 'z' => Some(Letter.z)
    case _ => None
  }

  /** The move spelled by `t` among the 24 plain and primed symbols the formula box
      accepts; doubled symbols are not among them. */
  function SymbolMove(t: string): (r: Option<Move>)
    ensures r.Some? ==> !r.value.IsDouble() && r.value.Symbol() == t
  {
    if |t| == 1 then
      match CharLetter(t[0])
      case Some(l) => Some(Move(l, Plain))
      case None => None
    else if |t| == 2 && t[1] == '\'' then
      match CharLetter(t[0])
      case Some(l) => Some(Move(l, Prime))
      case None => None
    else
      None
  }

  /** Every plain or primed symbol is accepted and read back as its move. */
  lemma SymbolMoveComplete(m: Move)
    requires !m.IsDouble()
    ensures SymbolMove(m.Symbol()) == Some(m)
  {
    assert m.Symbol()[0] == LetterChar(m.letter);
  }

  /** `toUpperCase` of one character, as far as it can produce a move letter: ASCII
      a to z, and the long s (U+017F), which upper-cases to S. */
  function UpperChar(ch: char): char {
    if 'a' <= ch <= 'z' then (ch as int - 32) as char
    else if ch == '\U{17F}' then 'S'
    else ch
  }

  /** `toUpperCase` of a string, character by character. */
  function UpperCase(s: string): string {
    seq(|s|, k requires 0 <= k < |s| => UpperChar(s[k]))
  }

  // ---------------------------------------------------------------------------
  // The formula box

  /** What one token contributes. A two-character token ending in `2` gives its
      upper-cased first character twice when that is a plain symbol; any other token
      gives its own move when it is a valid symbol; everything else is dropped. */
  function ParseToken(t: string): (r: seq<Move>)
    ensures |r| <= 2
    ensures forall k :: 0 <= k < |r| ==> !r[k].IsDouble()
    ensures |r| == 1 ==> r[0].Symbol() == t
    ensures |r| == 2 ==> |t| == 2 && t[1] == '2' && r[0] == r[1] && r[0].Symbol() == [UpperChar(t[0])]
    ensures r == [] <==>
      SymbolMove(t).None? && !(|t| == 2 && t[1] == '2' && SymbolMove([UpperChar(t[0])]).Some?)
  {
    if t == [] then []
    else if |t| == 2 && t[1] == '2' then
      match SymbolMove([UpperChar(t[0])])
      case Some(m) => [m, m]
      case None => []
    else
      match SymbolMove(t)
      case Some(m) => [m]
      case None => []
  }

  /** The moves of a token list, in token order. */
  function ParseTokens(ts: seq<string>): (r: seq<Move>)
    ensures |r| <= 2 * |ts|
    ensures forall k :: 0 <= k < |r| ==> !r[k].IsDouble()
  {
    if ts == [] then [] else ParseToken(ts[0]) + ParseTokens(ts[1..])
  }

  /** Reading two token lists one after the other reads their concatenation: every
      token's moves land in the output in token order. */
  lemma {:induction false} ParseTokensAppend(a: seq<string>, b: seq<string>)
    ensures ParseTokens(a + b) == ParseTokens(a) + ParseTokens(b)
  {
    if a == [] {
      assert a + b == b;
    } else {
      assert (a + b)[0] == a[0];
      assert (a + b)[1..] == a[1..] + b;
      ParseTokensAppend(a[1..], b);
    }
  }

  /** One more token adds its moves at the end. */
  lemma ParseTokensPrefix(ts: seq<string>, i: nat)
    requires i < |ts|
    ensures ParseTokens(ts[..i + 1]) == ParseTokens(ts[..i]) + ParseToken(ts[i])
  {
    assert ts[..i + 1] == ts[..i] + [ts[i]];
    ParseTokensAppend(ts[..i], [ts[i]]);
    assert ParseTokens([ts[i]]) == ParseToken(ts[i]) + ParseTokens([]);
  }

  /** The body of the formula box's loop for a non-empty token: a two-character token
      ending in `2` pushes its upper-cased first character's move twice, any other
      valid symbol pushes its own move. */
  method ReadToken(token: string) returns (pushed: seq<Move>)
    requires token != []
    ensures pushed == ParseToken(token)
  {
    pushed := [];
    if |token| == 2 && token[1] == '2' {
      var base := SymbolMove([UpperChar(token[0])]);
      if base.Some? {
        pushed := [base.value, base.value];
      }
    } else {
      var m := SymbolMove(token);
      if m.Some? {
        pushed := [m.value];
      }
    }
  }

  /** The formula box: split the trimmed text on whitespace and collect each token's
      moves, skipping empty tokens. */
  method ParseFormula(formula: string) returns (moves: seq<Move>)
    ensures moves == ParseTokens(Tokens(formula))
    ensures |moves| <= 2 * |Tokens(formula)|
    ensures forall k :: 0 <= k < |moves| ==> !moves[k].IsDouble()
  {
    var tokens := Tokens(formula);
    moves := [];
    for i := 0 to |tokens|
      invariant moves == ParseTokens(tokens[..i])
    {
      var token := tokens[i];
      ParseTokensPrefix(tokens, i);
      if token == [] {
        continue;
      }
      var pushed := ReadToken(token);
      moves := moves + pushed;
    }
    assert tokens[..|tokens|] == tokens;
  }

  /** A blank formula, empty or all whitespace, reads as no moves at all: the one token
      left after trimming is empty and is skipped. */
  lemma BlankFormula(formula: string)
    requires forall k :: 0 <= k < |formula| ==> IsSpace(formula[k])
    ensures Tokens(formula) == [""]
    ensures ParseTokens(Tokens(formula)) == []
  {
    assert TrimStart(formula) == [];
  }

  /** A doubled symbol reads as its plain move twice, except that `x2`, `y2` and `z2`
      read as nothing: upper-casing their letter leaves no valid symbol. */
  lemma DoubledSymbol(l: Letter)
    ensures ParseToken(Move(l, Double).Symbol()) ==
      if Move(l, Double).IsWholeCube() then [] else [Move(l, Plain), Move(l, Plain)]
  {
  }

  /** Lower-case doubled face letters are upper-cased (`u2` gives U twice), while a lone
      lower-case face letter and the forms `U'2` and `x'2` are dropped. */
  lemma TokenExamples()
    ensures ParseToken("u2") == [Move(Letter.U, Plain), Move(Letter.U, Plain)]
    ensures ParseToken("u") == []
    ensures ParseToken("U'2") == []
    ensures ParseToken("x'2") == []
    ensures ParseToken("x") == [Move(Letter.x, Plain)]
  {
  }

  /** A formula written the usual way: the symbols separated by single spaces. */
  function Join(ms: seq<Move>): string {
    if ms == [] then "" else if |ms| == 1 then ms[0].Symbol() else ms[0].Symbol() + " " + Join(ms[1..])
  }

  /** The symbols of a move list. */
  function Symbols(ms: seq<Move>): (r: seq<string>)
    ensures |r| == |ms|
    ensures forall k :: 0 <= k < |ms| ==> r[k] == ms[k].Symbol()
  {
    if ms == [] then [] else [ms[0].Symbol()] + Symbols(ms[1..])
  }

  /** Symbols contain no whitespace. */
  lemma SymbolIsWord(m: Move)
    ensures IsWord(m.Symbol()) && m.Symbol() != []
  {
  }

  /** The first whitespace after a word is where the word ends. */
  lemma FirstSpaceAfterWord(w: string, rest: string)
    requires IsWord(w)
    requires rest != [] && IsSpace(rest[0])
    ensures FirstSpace(w + rest) == |w|
    decreases |w|
  {
    if w != [] {
      assert (w + rest)[1..] == w[1..] + rest;
      FirstSpaceAfterWord(w[1..], rest);
    }
  }

  /** A word followed by one space and more text splits into the word and the pieces
      of the rest. */
  lemma SplitWordSpace(w: string, tail: string)
    requires IsWord(w) && tail != [] && !IsSpace(tail[0])
    ensures Split(w + " " + tail) == [w] + Split(tail)
  {
    var s := w + " " + tail;
    assert s == w + (" " + tail);
    FirstSpaceAfterWord(w, " " + tail);
    assert s[..|w|] == w;
    assert s[|w|..] == " " + tail;
    assert TrimStart(" " + tail) == tail;
  }

  /** A joined non-empty formula neither starts nor ends with whitespace. */
  lemma {:induction false} JoinUnpadded(ms: seq<Move>)
    requires ms != []
    ensures Join(ms) != [] && !IsSpace(Join(ms)[0]) && !IsSpace(Join(ms)[|Join(ms)| - 1])
  {
    SymbolIsWord(ms[0]);
    if |ms| > 1 {
      JoinUnpadded(ms[1..]);
    }
  }

  /** A joined formula splits back into its symbols. */
  lemma {:induction false} SplitJoin(ms: seq<Move>)
    requires ms != []
    ensures Split(Join(ms)) == Symbols(ms)
  {
    var w := ms[0].Symbol();
    SymbolIsWord(ms[0]);
    if |ms| == 1 {
      assert w[..|w|] == w;
    } else {
      JoinUnpadded(ms[1..]);
      SplitJoin(ms[1..]);
      SplitWordSpace(w, Join(ms[1..]));
      assert Symbols(ms) == [w] + Symbols(ms[1..]);
    }
  }

  /** Reading the symbols of every list of plain and primed moves, separated by single
      spaces, gives the list back. */
  lemma {:induction false} ParseJoin(ms: seq<Move>)
    requires forall k :: 0 <= k < |ms| ==> !ms[k].IsDouble()
    ensures ParseTokens(Tokens(Join(ms))) == ms
  {
    if ms == [] {
      EmptyFormulaParses();
    } else {
      JoinTokens(ms);
      SymbolsParse(ms);
    }
  }

  /** The empty formula reads as no moves. */
  lemma EmptyFormulaParses()
    ensures ParseTokens(Tokens(Join([]))) == []
  {
    assert Tokens(Join([])) == [""];
  }

  /** The tokens of a written-out non-empty formula are its symbols. */
  lemma JoinTokens(ms: seq<Move>)
    requires ms != []
    ensures Tokens(Join(ms)) == Symbols(ms)
  {
    JoinUnpadded(ms);
    SplitJoin(ms);
    TrimUnpadded(Join(ms));
  }

  /** Every plain or primed symbol reads as its own move, in order. */
  lemma {:induction false} SymbolsParse(ms: seq<Move>)
    requires forall k :: 0 <= k < |ms| ==> !ms[k].IsDouble()
    ensures ParseTokens(Symbols(ms)) == ms
  {
    if ms != [] {
      ParseSymbol(ms[0]);
      assert Symbols(ms)[1..] == Symbols(ms[1..]);
      SymbolsParse(ms[1..]);
    }
  }

  /** The token spelling a plain or primed move reads as that move alone. */
  lemma ParseSymbol(m: Move)
    requires !m.IsDouble()
    ensures ParseToken(m.Symbol()) == [m]
  {
    SymbolMoveComplete(m);
  }

  // ---------------------------------------------------------------------------
  // The keyboard

  /** The key table: an upper-cased key names the letter it turns. The face and slice
      keys name their own letter; X, Y and Z name the whole-cube turns x, y and z. */
  function KeyLetter(key: string): Option<Letter> {
    if |key| != 1 then None
    else
      match key[0]
      case 'U' => Some(Letter.U)  case 'D' => Some(Letter.D)  case 'L' => Some(Letter.L)
      case 'R' => Some(Letter.R)  case 'F' => Some(Letter.F)  case 'B' => Some(Letter.B)
      case 'M' => Some(Letter.M)  case 'E' => Some(Letter.E)  case 'S' => Some(Letter.S)
      case 'X' => Some(Letter.x)  case 'Y' => Some(Letter.y)  case 'Z' => Some(Letter.z)
      case _ => None
  }

  /** The key that issues a letter's move. */
  function KeyChar(l: Letter): (ch: char)
    ensures ch == UpperChar(LetterChar(l))
  {
    match l
    case U => 'U'  case D => 'D'  case L => 'L'  case R => 'R'  case F => 'F'  case B => 'B'
    case M => 'M'  case E => 'E'  case S => 'S'  case x => 'X'  case y => 'Y'  case z => 'Z'
  }

  /** The move a key press issues: the table's letter for the upper-cased key, primed
      while Shift is held; any other key issues nothing. */
  function KeyMove(key: string, shift: bool): (r: Option<Move>)
    ensures r.Some? ==> r.value.kind == (if shift then Prime else Plain)
  {
    match KeyLetter(UpperCase(key))
    case Some(l) => Some(Move(l, if shift then Prime else Plain))
    case None => None
  }

  /** A key press issues move `m` exactly when the key is one character that
      upper-cases to `m`'s key and Shift matches `m`'s prime. */
  lemma KeyMoveExactly(key: string, shift: bool, m: Move)
    ensures KeyMove(key, shift) == Some(m) <==>
      |key| == 1 && UpperChar(key[0]) == KeyChar(m.letter) && m.kind == (if shift then Prime else Plain)
  {
    if |key| == 1 {
      assert UpperCase(key) == [UpperChar(key[0])];
    }
  }

  /** Every plain and primed move can be issued from the keyboard, and every move the
      keyboard issues is one the formula box accepts too. */
  lemma KeyboardCoversSymbols(m: Move)
    requires !m.IsDouble()
    ensures KeyMove([KeyChar(m.letter)], m.IsPrime()) == Some(m)
    ensures SymbolMove(m.Symbol()) == Some(m)
  {
    KeyMoveExactly([KeyChar(m.letter)], m.IsPrime(), m);
    SymbolMoveComplete(m);
  }
}
