/** The four headings of a rover and the tables the rover class keeps about them:
    `orient_dct` (heading letter to unit step) and `orient_lst` (its keys in order N, E, S, W). */
module Headings {
  import opened Results

  datatype Heading = N | E | S | W

  /** `orient_lst`: the keys of `orient_dct` in insertion order. */
  const Order: seq<Heading> := [N, E, S, W]

  /** `orient_lst.index(head)`. */
  function IndexOf(h: Heading): (i: nat)
    ensures i < |Order| && Order[i] == h
  {
    match h
    case N => 0
    case E => 1
    case S => 2
    case W => 3
  }

  /** Turning left: the heading a quarter turn counter-clockwise (see LeftRightAreIndexSteps
      for the index arithmetic on `orient_lst` that the rover class performs). */
  function Left(h: Heading): Heading {
    match h
    case N => W
    case E => N
    case S => E
    case W => S
  }

  /** Turning right: the heading a quarter turn clockwise. */
  function Right(h: Heading): Heading {
    match h
    case N => E
    case E => S
    case S => W
    case W => N
  }

  /** `rotate` computes the new heading as `orient_lst[(head_idx - 1) % 4]` for L and
      `orient_lst[(head_idx + 1) % 4]` for R; Python's `%` with a positive divisor agrees with
      Dafny's. Those are exactly Left and Right. */
  lemma LeftRightAreIndexSteps(h: Heading)
    ensures Left(h) == Order[(IndexOf(h) - 1) % 4]
    ensures Right(h) == Order[(IndexOf(h) + 1) % 4]
  {
    match h
    case N => assert (0 - 1) % 4 == 3;
    case E =>
    case S =>
    case W => assert (3 + 1) % 4 == 0;
  }

  /** `orient_dct[head]`: the unit step of a heading. */
  function Delta(h: Heading): (int, int) {
    match h
    case N => (0, 1)
    case E => (1, 0)
    case S => (0, -1)
    case W => (-1, 0)
  }

  /** The letter a heading is stored and printed as. */
  function Letter(h: Heading): char {
    match h
    case N => 'N'
    case E => 'E'
    case S => 'S'
    case W => 'W'
  }

  /** The part of Python's `str.upper` on one character that can yield a letter the rover reads:
      ASCII lower case to upper case, and U+017F (long s), whose upper case is 'S'. Every other
      character is left as it is, which is exact as far as N, E, S, W, L, R and M are concerned. */
  function Upper(c: char): char {
    if 'a' <= c <= 'z' then (c as int - 32) as char
    else if c == '\U{017F}' then 'S'
    else c
  }

  /** `head.upper() in orient_lst`, and the heading that is then stored (`head.upper()`).
      A string upper-cases to a one-letter string only when it has one character. */
  function ParseHeading(s: string): (r: Option<Heading>)
    ensures r.Some? <==> |s| == 1 && Upper(s[0]) in {'N', 'E', 'S', 'W'}
    ensures r.Some? ==> Letter(r.value) == Upper(s[0])
  {
    if |s| != 1 then None
    else match Upper(s[0])
      case 'N' => Some(N)
      case 'E' => Some(E)
      case 'S' => Some(S)
      case 'W' => Some(W)
      case _ => None
  }

  /** A heading's own letter, in either case, parses back to it. */
  lemma ParseLetter(h: Heading)
    ensures ParseHeading([Letter(h)]) == Some(h)
    ensures ParseHeading([Letter(h) + ('a' - 'A')]) == Some(h)
  {
  }

  /** Left and right turns undo each other. */
  lemma LeftRightInverse(h: Heading)
    ensures Left(Right(h)) == h && Right(Left(h)) == h
  {
  }

  /** Four turns the same way restore the heading; two turns either way face the opposite way. */
  lemma FourTurnsIdentity(h: Heading)
    ensures Right(Right(Right(Right(h)))) == h
    ensures Left(Left(Left(Left(h)))) == h
    ensures Right(Right(h)) == Left(Left(h))
    ensures Delta(Right(Right(h))) == (-Delta(h).0, -Delta(h).1)
  {
    match h
    case N =>
    case E =>
    case S =>
    case W =>
  }

  /** The unit step of a heading is a single step along one axis, so a move is never onto the
      rover's own cell. */
  lemma DeltaIsUnit(h: Heading)
    ensures Delta(h) != (0, 0)
    ensures (if Delta(h).0 < 0 then -Delta(h).0 else Delta(h).0)
          + (if Delta(h).1 < 0 then -Delta(h).1 else Delta(h).1) == 1
  {
  }

  /** Turning right rotates the unit step a quarter turn clockwise, turning left a quarter
      turn counter-clockwise: the index order of `orient_lst` is the compass order. */
  lemma TurnsRotateStep(h: Heading)
    ensures Delta(Right(h)) == (Delta(h).1, -Delta(h).0)
    ensures Delta(Left(h)) == (-Delta(h).1, Delta(h).0)
  {
  }
}
