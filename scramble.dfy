/**
 * The 3x3 scramble generator of the dashboard: an 18-token move vocabulary
 * (six faces, each plain, prime or double), the generator that draws tokens
 * and rejects a draw whose face repeats the previous move's face, and the
 * space-separated text form of a scramble.
 */
module Scramble {
  import opened Options

  datatype Face = R | L | U | D | F | B
  datatype Turn = Plain | Prime | Double
  datatype Move = Move(face: Face, turn: Turn)

  /** One draw of the random source: an index into the vocabulary. */
  type Draw = i: int | 0 <= i < 18

  /** Number of moves in a scramble when no length is given. */
  const DefaultLength: nat := 20

  /** The vocabulary as the dashboard lists it, in its order. */
  const ScrambleMoves: seq<string> := [
    "R", "R'", "R2", "L", "L'", "L2",
    "U", "U'", "U2", "D", "D'", "D2",
    "F", "F'", "F2", "B", "B'", "B2"
  ]

  const Faces: seq<Face> := [R, L, U, D, F, B]
  const Turns: seq<Turn> := [Plain, Prime, Double]

  function FaceLetter(f: Face): char
  {
    match f
    case R => 'R'
    case L => 'L'
    case U => 'U'
    case D => 'D'
    case F => 'F'
    case B => 'B'
  }

  function LetterFace(c: char): Option<Face>
  {
    if c == 'R' then Some(R)
    else if c == 'L' then Some(L)
    else if c == 'U' then Some(U)
    else if c == 'D' then Some(D)
    else if c == 'F' then Some(F)
    else if c == 'B' then Some(B)
    else None
  }

  /** The text of one move: its face letter followed by nothing, a prime or a 2. */
  function Token(m: Move): string
  {
    [FaceLetter(m.face)] + match m.turn
      case Plain => ""
      case Prime => "'"
      case Double => "2"
  }

  /** The move the vocabulary holds at index i. */
  function MoveAt(i: Draw): Move
  {
    Move(Faces[i / 3], Turns[i % 3])
  }

  function FaceIndex(f: Face): nat
  {
    match f
    case R => 0
    case L => 1
    case U => 2
    case D => 3
    case F => 4
    case B => 5
  }

  function TurnIndex(t: Turn): nat
  {
    match t
    case Plain => 0
    case Prime => 1
    case Double => 2
  }

  /** Where a move stands in the vocabulary. */
  function IndexOf(m: Move): Draw
  {
    3 * FaceIndex(m.face) + TurnIndex(m.turn)
  }

  /** The vocabulary is exactly the tokens of the 18 moves, in index order. */
  lemma VocabularyIsTokens()
    ensures |ScrambleMoves| == 18
    ensures forall i: Draw :: Token(MoveAt(i)) == ScrambleMoves[i]
  {
    forall i: Draw ensures Token(MoveAt(i)) == ScrambleMoves[i] {
      if i < 3 { assert i / 3 == 0; }
      else if i < 6 { assert i / 3 == 1; }
      else if i < 9 { assert i / 3 == 2; }
      else if i < 12 { assert i / 3 == 3; }
      else if i < 15 { assert i / 3 == 4; }
      else { assert i / 3 == 5; }
    }
  }

  /** Indices and moves are in one-to-one correspondence. */
  lemma IndexRoundTrip(i: Draw, m: Move)
    ensures IndexOf(MoveAt(i)) == i
    ensures MoveAt(IndexOf(m)) == m
  {
  }

  /** Every move's token belongs to the vocabulary, and its first character names its face. */
  lemma TokenInVocabulary(m: Move)
    ensures Token(m) in ScrambleMoves
    ensures Token(m)[0] == FaceLetter(m.face)
  {
    VocabularyIsTokens();
    IndexRoundTrip(0, m);
    assert Token(MoveAt(IndexOf(m))) == ScrambleMoves[IndexOf(m)];
  }

  /** Comparing first characters, as the generator does, is comparing faces. */
  lemma FaceLetterInjective(f: Face, g: Face)
    ensures FaceLetter(f) == FaceLetter(g) <==> f == g
    ensures LetterFace(FaceLetter(f)) == Some(f)
  {
  }

  /** No two consecutive moves turn the same face. */
  ghost predicate NoAdjacentFace(ms: seq<Move>)
  {
    forall i :: 0 < i < |ms| ==> ms[i - 1].face != ms[i].face
  }

  /** Puts a prefix in front of a generated sequence, keeping a failure a failure. */
  function Prefixed(p: seq<Move>, o: Option<seq<Move>>): Option<seq<Move>>
  {
    match o
    case None => None
    case Some(ms) => Some(p + ms)
  }

  lemma PrefixedAppend(p: seq<Move>, q: seq<Move>, o: Option<seq<Move>>)
    ensures Prefixed(p, Prefixed(q, o)) == Prefixed(p + q, o)
    ensures Prefixed([], o) == o
  {
    match o
    case None =>
    case Some(ms) =>
      assert p + (q + ms) == (p + q) + ms;
      assert [] + ms == ms;
  }

  /**
   * What the generator yields from the draws, when n more moves are wanted and
   * the previous move turned face last (None before the first move): a draw on
   * the previous face is rejected and the next one tried. None when the draws
   * run out first.
   */
  function GenerateFrom(draws: seq<Draw>, n: nat, last: Option<Face>): Option<seq<Move>>
    decreases |draws|
  {
    if n == 0 then Some([])
    else if |draws| == 0 then None
    else
      var m := MoveAt(draws[0]);
      if Some(m.face) == last then GenerateFrom(draws[1..], n, last)
      else Prefixed([m], GenerateFrom(draws[1..], n - 1, Some(m.face)))
  }

  function Generate(draws: seq<Draw>, n: nat): Option<seq<Move>>
  {
    GenerateFrom(draws, n, None)
  }

  /** A generated scramble has the requested length and never turns one face twice in a row. */
  lemma {:induction false} GeneratedWellFormed(draws: seq<Draw>, n: nat, last: Option<Face>)
    ensures GenerateFrom(draws, n, last).Some? ==>
      var ms := GenerateFrom(draws, n, last).value;
      && |ms| == n
      && NoAdjacentFace(ms)
      && (last.Some? && n > 0 ==> ms[0].face != last.value)
    decreases |draws|
  {
    if n == 0 || |draws| == 0 {
    } else {
      var m := MoveAt(draws[0]);
      if Some(m.face) == last {
        GeneratedWellFormed(draws[1..], n, last);
      } else {
        GeneratedWellFormed(draws[1..], n - 1, Some(m.face));
      }
    }
  }

  /**
   * The generator as the dashboard runs it: a loop over the wanted moves, each
   * drawn again and again until its face differs from the previous move's.
   */
  method GenerateScramble(draws: seq<Draw>, length: nat) returns (r: Option<seq<Move>>)
    ensures r == Generate(draws, length)
    ensures r.Some? ==> |r.value| == length && NoAdjacentFace(r.value)
    ensures r.Some? ==> forall i :: 0 <= i < |r.value| ==> Token(r.value[i]) in ScrambleMoves
  {
    var moves: seq<Move> := [];
    var lastFace: Option<Face> := None;
    var k := 0;
    assert draws[k..] == draws;
    PrefixedAppend([], [], Generate(draws, length));
    for i := 0 to length
      invariant |moves| == i && k <= |draws|
      invariant lastFace == if i == 0 then None else Some(moves[i - 1].face)
      invariant Generate(draws, length) == Prefixed(moves, GenerateFrom(draws[k..], length - i, lastFace))
    {
      var move := MoveAt(0);
      var accepted := false;
      while !accepted
        invariant k <= |draws|
        invariant accepted ==> Some(move.face) != lastFace
        invariant Generate(draws, length) == Prefixed(moves,
          if accepted then Prefixed([move], GenerateFrom(draws[k..], length - i - 1, Some(move.face)))
          else GenerateFrom(draws[k..], length - i, lastFace))
        decreases |draws| - k
      {
        if k == |draws| {
          return None;
        }
        move := MoveAt(draws[k]);
        assert draws[k..][1..] == draws[k + 1..];
        k := k + 1;
        accepted := Some(move.face) != lastFace;
      }
      PrefixedAppend(moves, [move], GenerateFrom(draws[k..], length - i - 1, Some(move.face)));
      moves := moves + [move];
      lastFace := Some(move.face);
    }
    assert moves + [] == moves;
    r := Some(moves);
    GeneratedWellFormed(draws, length, None);
    forall i | 0 <= i < |moves| ensures Token(moves[i]) in ScrambleMoves {
      TokenInVocabulary(moves[i]);
    }
  }

  /** The scramble text: the tokens joined with single spaces. */
  function Join(ms: seq<Move>): string
  {
    if |ms| == 0 then ""
    else if |ms| == 1 then Token(ms[0])
    else Token(ms[0]) + " " + Join(ms[1..])
  }

  /** Reads one token at the front of s: the move and how many characters it took. */
  function ParseToken(s: string): Option<(Move, nat)>
  {
    if |s| == 0 then None
    else match LetterFace(s[0])
      case None => None
      case Some(f) =>
        if |s| > 1 && s[1] == '\'' then Some((Move(f, Prime), 2))
        else if |s| > 1 && s[1] == '2' then Some((Move(f, Double), 2))
        else Some((Move(f, Plain), 1))
  }

  /** Reads a scramble text back into moves. */
  function ParseMoves(s: string): Option<seq<Move>>
    decreases |s|
  {
    if |s| == 0 then Some([])
    else match ParseToken(s)
      case None => None
      case Some((m, k)) =>
        if k >= |s| then Some([m])
        else if s[k] == ' ' then Prefixed([m], ParseMoves(s[k + 1..]))
        else None
  }

  lemma ParseTokenOf(m: Move, rest: string)
    requires rest == [] || rest[0] == ' '
    ensures ParseToken(Token(m) + rest) == Some((m, |Token(m)|))
  {
    FaceLetterInjective(m.face, m.face);
    var s := Token(m) + rest;
    assert s[0] == FaceLetter(m.face);
  }

  /** The text of a scramble determines the scramble: reading it back gives the moves. */
  lemma {:induction false} ParseJoin(ms: seq<Move>)
    ensures ParseMoves(Join(ms)) == Some(ms)
  {
    if |ms| == 0 {
    } else if |ms| == 1 {
      ParseTokenOf(ms[0], []);
      assert Token(ms[0]) + [] == Token(ms[0]);
      assert ms == [ms[0]];
    } else {
      var t := Token(ms[0]);
      var rest := " " + Join(ms[1..]);
      ParseTokenOf(ms[0], rest);
      var s := Join(ms);
      assert s == t + rest;
      assert s[|t|] == ' ';
      assert s[|t| + 1..] == Join(ms[1..]);
      ParseJoin(ms[1..]);
      assert [ms[0]] + ms[1..] == ms;
    }
  }
}
