/** Submarine commands (src/challenges/day2.rs): a parser for "up N",
    "down N" and "forward N", and two state machines that follow them. */
module Day2 {
  import opened Results

  const U32Limit: nat := 0x1_0000_0000
  const I32Limit: nat := 0x8000_0000

  type U32 = n: nat | n < U32Limit

  /** A travelling direction with its distance, a Rust `u32`. */
  datatype Direction = Up(distance: U32) | Down(distance: U32) | Forward(distance: U32)

  datatype Error = MalformedDirection(text: string)

  /** `distance as i32`: a `u32` at or above 2^31 wraps to a negative `i32`. */
  function AsI32(n: U32): (r: int)
    ensures -(I32Limit as int) <= r < I32Limit
    ensures r % U32Limit == n % U32Limit
    ensures n < I32Limit ==> r == n
  {
    if n < I32Limit then n else n - U32Limit
  }

  // ---------------------------------------------------------------------
  // Text: `str::split(" ")` and `str::parse::<u32>()`
  // ---------------------------------------------------------------------

  /** The pieces of `s` between single spaces, as `split(" ")` yields them:
      consecutive spaces give empty pieces and there is always a first piece. */
  function Split(s: string): (r: seq<string>)
    ensures |r| >= 1
    ensures forall k, c :: 0 <= k < |r| && 0 <= c < |r[k]| ==> r[k][c] != ' '
  {
    if |s| == 0 then [""]
    else if s[0] == ' ' then [""] + Split(s[1..])
    else
      var rest := Split(s[1..]);
      [[s[0]] + rest[0]] + rest[1..]
  }

  /** The pieces joined again with single spaces. */
  function Join(parts: seq<string>): string
    requires |parts| >= 1
  {
    if |parts| == 1 then parts[0] else parts[0] + " " + Join(parts[1..])
  }

  predicate NoSpace(s: string)
  {
    forall c :: 0 <= c < |s| ==> s[c] != ' '
  }

  lemma {:induction false} SplitJoin(s: string)
    ensures Join(Split(s)) == s
  {
    if |s| > 0 {
      SplitJoin(s[1..]);
      var rest := Split(s[1..]);
      if s[0] == ' ' {
        assert s == [' '] + s[1..];
      } else if |rest| == 1 {
        assert s == [s[0]] + s[1..];
      } else {
        assert Join(rest) == rest[0] + " " + Join(rest[1..]);
        assert s == [s[0]] + s[1..];
      }
    }
  }

  /** A word without spaces followed by a space is split off as the first piece. */
  lemma {:induction false} SplitWord(w: string, rest: string)
    requires NoSpace(w)
    ensures Split(w + " " + rest) == [w] + Split(rest)
  {
    if |w| == 0 {
      assert w + " " + rest == [' '] + rest;
    } else {
      SplitWord(w[1..], rest);
      assert (w + " " + rest)[1..] == w[1..] + " " + rest;
      assert (w + " " + rest)[0] == w[0] != ' ';
      assert [w[0]] + w[1..] == w;
    }
  }

  /** A word without spaces is a single piece. */
  lemma {:induction false} SplitNoSpace(w: string)
    requires NoSpace(w)
    ensures Split(w) == [w]
  {
    if |w| > 0 {
      SplitNoSpace(w[1..]);
      assert [w[0]] + w[1..] == w;
    }
  }

  predicate IsDigit(c: char) { '0' <= c <= '9' }

  /** The decimal value of a string of digits. */
  function DigitsValue(s: string): nat
    requires forall c :: 0 <= c < |s| ==> IsDigit(s[c])
  {
    if |s| == 0 then 0
    else
      assert IsDigit(s[|s| - 1]);
      DigitsValue(s[..|s| - 1]) * 10 + (s[|s| - 1] as int - '0' as int)
  }

  /** `parse::<u32>()`: an optional '+' and then one or more decimal digits
      whose value fits in 32 bits; anything else fails. */
  function ParseU32(s: string): (r: Option<U32>)
    ensures r.Some? ==> |s| > 0
  {
    var digits := if |s| > 0 && s[0] == '+' then s[1..] else s;
    if |digits| == 0 || !(forall c :: 0 <= c < |digits| ==> IsDigit(digits[c])) then None
    else
      var v := DigitsValue(digits);
      if v < U32Limit then Some(v) else None
  }

  function DigitChar(d: nat): (c: char)
    requires d < 10
    ensures IsDigit(c)
  {
    ('0' as int + d) as char
  }

  /** The shortest decimal rendering of `n`. */
  function Decimal(n: nat): (s: string)
    ensures |s| > 0 && s[0] != '+' && s[0] != ' '
    ensures forall c :: 0 <= c < |s| ==> IsDigit(s[c])
  {
    if n < 10 then [DigitChar(n)] else Decimal(n / 10) + [DigitChar(n % 10)]
  }

  lemma {:induction false} DecimalValue(n: nat)
    ensures DigitsValue(Decimal(n)) == n
  {
    var s := Decimal(n);
    if n >= 10 {
      DecimalValue(n / 10);
      assert s[..|s| - 1] == Decimal(n / 10);
    }
  }

  /** Parsing the decimal rendering of a `u32` gives it back. */
  lemma ParseDecimal(n: U32)
    ensures ParseU32(Decimal(n)) == Some(n)
  {
    DecimalValue(n);
  }

  // ---------------------------------------------------------------------
  // Direction::from
  // ---------------------------------------------------------------------

  function Keyword(d: Direction): string
  {
    match d
    case Up(_) => "up"
    case Down(_) => "down"
    case Forward(_) => "forward"
  }

  /** The three instruction words a direction can start with. */
  predicate IsKeyword(w: string)
  {
    w == "up" || w == "down" || w == "forward"
  }

  /** `Direction::from`: the first piece names the direction and the second
      must parse as a `u32`; pieces after the second are ignored, and any
      other line is a panic. */
  function DirectionFrom(text: string): (r: Result<Direction, Error>)
    ensures r.Ok? <==> |Split(text)| >= 2 && IsKeyword(Split(text)[0]) && ParseU32(Split(text)[1]).Some?
    ensures r.Err? ==> r.error == MalformedDirection(text)
    ensures r.Ok? ==> |Split(text)| >= 2
                      && Split(text)[0] == Keyword(r.value)
                      && ParseU32(Split(text)[1]) == Some(r.value.distance)
  {
    var parts := Split(text);
    var n := if |parts| >= 2 then ParseU32(parts[1]) else None;
    match (parts[0], n)
    case ("up", Some(d)) => Ok(Up(d))
    case ("down", Some(d)) => Ok(Down(d))
    case ("forward", Some(d)) => Ok(Forward(d))
    case _ => Err(MalformedDirection(text))
  }

  /** The instruction text for a direction. */
  function Render(d: Direction): string
  {
    Keyword(d) + " " + Decimal(d.distance)
  }

  /** Direction::from reads back every rendered direction. */
  lemma RenderRoundTrip(d: Direction)
    ensures DirectionFrom(Render(d)) == Ok(d)
  {
    var k, digits := Keyword(d), Decimal(d.distance);
    assert NoSpace(k);
    SplitWord(k, digits);
    SplitNoSpace(digits);
    ParseDecimal(d.distance);
  }

  /** Pieces after the second one are ignored: a rendered direction followed
      by a space and anything at all still reads back as that direction. */
  lemma RenderIgnoresTail(d: Direction, tail: string)
    ensures DirectionFrom(Render(d) + " " + tail) == Ok(d)
  {
    var k, digits := Keyword(d), Decimal(d.distance);
    assert NoSpace(k);
    SplitWord(digits, tail);
    assert Render(d) + " " + tail == k + " " + (digits + " " + tail);
    SplitWord(k, digits + " " + tail);
    ParseDecimal(d.distance);
  }

  // ---------------------------------------------------------------------
  // Position and Attitude
  // ---------------------------------------------------------------------

  /** Position of the submarine: lateral distance and depth. */
  class Position {
    var horizontal: int
    var depth: int

    constructor ()
      ensures horizontal == 0 && depth == 0
    {
      horizontal, depth := 0, 0;
    }

    /** Up and Down move the depth, Forward the horizontal position; the
        other field is left alone. */
    method Go(d: Direction)
      modifies this
      ensures d.Up? ==> depth == old(depth) - AsI32(d.distance) && horizontal == old(horizontal)
      ensures d.Down? ==> depth == old(depth) + AsI32(d.distance) && horizontal == old(horizontal)
      ensures d.Forward? ==> horizontal == old(horizontal) + AsI32(d.distance) && depth == old(depth)
    {
      match d
      case Up(distance) => depth := depth - AsI32(distance);
      case Down(distance) => depth := depth + AsI32(distance);
      case Forward(distance) => horizontal := horizontal + AsI32(distance);
    }
  }

  /** Position and aim of the submarine; the position is owned by the attitude. */
  class Attitude {
    var aim: int
    const position: Position

    constructor ()
      ensures aim == 0 && position.horizontal == 0 && position.depth == 0
      ensures fresh(position)
    {
      aim := 0;
      position := new Position();
    }

    /** Up and Down turn the aim only; Forward moves on by the distance and
        sinks by `aim` times the distance, leaving the aim alone. */
    method Go(d: Direction)
      modifies this, position
      ensures !d.Forward? ==> position.horizontal == old(position.horizontal)
                              && position.depth == old(position.depth)
      ensures d.Up? ==> aim == old(aim) - AsI32(d.distance)
      ensures d.Down? ==> aim == old(aim) + AsI32(d.distance)
      ensures d.Forward? ==> aim == old(aim)
                             && position.horizontal == old(position.horizontal) + AsI32(d.distance)
                             && position.depth == old(position.depth) + old(aim) * AsI32(d.distance)
    {
      match d
      case Up(amount) => aim := aim - AsI32(amount);
      case Down(amount) => aim := aim + AsI32(amount);
      case Forward(distance) =>
        position.horizontal := position.horizontal + AsI32(distance);
        position.depth := position.depth + aim * AsI32(distance);
    }
  }

  // ---------------------------------------------------------------------
  // The folds of part 1 and part 2, as values
  // ---------------------------------------------------------------------

  datatype Coords = Coords(horizontal: int, depth: int)
  datatype Heading = Heading(aim: int, at: Coords)

  /** Where `Position::go` leaves the submarine after following `ds` from the origin. */
  function Travel(ds: seq<Direction>): Coords
  {
    if ds == [] then Coords(0, 0)
    else
      var c := Travel(ds[..|ds| - 1]);
      var n := AsI32(ds[|ds| - 1].distance);
      match ds[|ds| - 1]
      case Up(_) => c.(depth := c.depth - n)
      case Down(_) => c.(depth := c.depth + n)
      case Forward(_) => c.(horizontal := c.horizontal + n)
  }

  /** Where `Attitude::go` leaves the submarine after following `ds`. */
  function Steer(ds: seq<Direction>): Heading
  {
    if ds == [] then Heading(0, Coords(0, 0))
    else
      var h := Steer(ds[..|ds| - 1]);
      var n := AsI32(ds[|ds| - 1].distance);
      match ds[|ds| - 1]
      case Up(_) => h.(aim := h.aim - n)
      case Down(_) => h.(aim := h.aim + n)
      case Forward(_) => h.(at := Coords(h.at.horizontal + n, h.at.depth + h.aim * n))
  }

  /** Sum of the Forward distances. */
  function ForwardSum(ds: seq<Direction>): int
  {
    if ds == [] then 0
    else ForwardSum(ds[..|ds| - 1]) + (if ds[|ds| - 1].Forward? then AsI32(ds[|ds| - 1].distance) else 0)
  }

  /** Both interpretations move forward by exactly the Forward distances. */
  lemma {:induction false} HorizontalAgrees(ds: seq<Direction>)
    ensures Travel(ds).horizontal == ForwardSum(ds)
    ensures Steer(ds).at.horizontal == ForwardSum(ds)
  {
    if ds != [] {
      HorizontalAgrees(ds[..|ds| - 1]);
    }
  }

  /** The aim of part 2 is the depth of part 1. */
  lemma {:induction false} AimIsDepth(ds: seq<Direction>)
    ensures Steer(ds).aim == Travel(ds).depth
  {
    if ds != [] {
      AimIsDepth(ds[..|ds| - 1]);
    }
  }

  /** The lines of the input parsed in order; the first malformed line panics. */
  function ParseAll(lines: seq<string>): (r: Result<seq<Direction>, Error>)
    ensures r.Ok? ==> |r.value| == |lines|
                      && forall k :: 0 <= k < |lines| ==> DirectionFrom(lines[k]) == Ok(r.value[k])
    ensures r.Err? ==> exists k :: 0 <= k < |lines| && DirectionFrom(lines[k]) == Err(r.error)
  {
    if lines == [] then Ok([])
    else
      var d :- DirectionFrom(lines[0]);
      var rest :- ParseAll(lines[1..]);
      Ok([d] + rest)
  }

  /** Part 1: follow the commands with `Position::go` and multiply the
      horizontal position by the depth. */
  method Part1(lines: seq<string>) returns (r: Result<int, Error>)
    ensures r == (match ParseAll(lines)
                  case Ok(ds) => Ok(Travel(ds).horizontal * Travel(ds).depth)
                  case Err(e) => Err(e))
  {
    var position := new Position();
    ghost var ds: seq<Direction> := [];
    for k := 0 to |lines|
      invariant ParseAll(lines[..k]) == Ok(ds)
      invariant Travel(ds) == Coords(position.horizontal, position.depth)
    {
      var d := DirectionFrom(lines[k]);
      if d.Err? {
        ParsePrefixFails(lines, k);
        return Err(d.error);
      }
      ParsePrefixExtends(lines, k, ds, d.value);
      position.Go(d.value);
      ds := ds + [d.value];
    }
    assert lines[..|lines|] == lines;
    r := Ok(position.horizontal * position.depth);
  }

  /** Part 2: follow the commands with `Attitude::go`. */
  method Part2(lines: seq<string>) returns (r: Result<int, Error>)
    ensures r == (match ParseAll(lines)
                  case Ok(ds) => Ok(Steer(ds).at.horizontal * Steer(ds).at.depth)
                  case Err(e) => Err(e))
  {
    var attitude := new Attitude();
    ghost var ds: seq<Direction> := [];
    for k := 0 to |lines|
      invariant ParseAll(lines[..k]) == Ok(ds)
      invariant Steer(ds) == Heading(attitude.aim, Coords(attitude.position.horizontal, attitude.position.depth))
    {
      var d := DirectionFrom(lines[k]);
      if d.Err? {
        ParsePrefixFails(lines, k);
        return Err(d.error);
      }
      ParsePrefixExtends(lines, k, ds, d.value);
      attitude.Go(d.value);
      ds := ds + [d.value];
    }
    assert lines[..|lines|] == lines;
    r := Ok(attitude.position.horizontal * attitude.position.depth);
  }

  lemma {:induction false} ParsePrefixExtends(lines: seq<string>, k: nat, ds: seq<Direction>, d: Direction)
    requires k < |lines|
    requires ParseAll(lines[..k]) == Ok(ds)
    requires DirectionFrom(lines[k]) == Ok(d)
    ensures ParseAll(lines[..k + 1]) == Ok(ds + [d])
  {
    if k == 0 {
      assert lines[..0] == [] && ds == [];
      assert lines[..1] == [lines[0]] && [lines[0]][1..] == [];
      assert ParseAll([lines[0]][1..]) == Ok([]);
      assert ParseAll([lines[0]]) == Ok([d] + []);
      assert ds + [d] == [d] + [];
    } else {
      var first := DirectionFrom(lines[0]).value;
      assert lines[..k][0] == lines[0] && lines[..k][1..] == lines[1..][..k - 1];
      assert lines[..k + 1][0] == lines[0] && lines[..k + 1][1..] == lines[1..][..k];
      var rest := ParseAll(lines[1..][..k - 1]).value;
      assert ds == [first] + rest;
      ParsePrefixExtends(lines[1..], k - 1, rest, d);
      assert ds + [d] == [first] + (rest + [d]);
    }
  }

  lemma {:induction false} ParsePrefixFails(lines: seq<string>, k: nat)
    requires k < |lines|
    requires ParseAll(lines[..k]).Ok?
    requires DirectionFrom(lines[k]).Err?
    ensures ParseAll(lines) == Err(DirectionFrom(lines[k]).error)
  {
    if k > 0 {
      assert lines[..k][1..] == lines[1..][..k - 1];
      ParsePrefixFails(lines[1..], k - 1);
    }
  }

  /** The example commands of the puzzle statement. */
  const Example: seq<string> := ["forward 5", "down 5", "forward 8", "up 3", "down 8", "forward 2"]

  lemma ExampleParses()
    ensures ParseAll(Example) == Ok([Forward(5), Down(5), Forward(8), Up(3), Down(8), Forward(2)])
  {
    var ds := [Forward(5), Down(5), Forward(8), Up(3), Down(8), Forward(2)];
    forall k | 0 <= k < |Example|
      ensures DirectionFrom(Example[k]) == Ok(ds[k])
    {
      RenderRoundTrip(ds[k]);
      assert Decimal(ds[k].distance) == [DigitChar(ds[k].distance)];
      assert Example[k] == Render(ds[k]);
    }
    ParseAllAccepts(Example, ds);
  }

  lemma {:induction false} ParseAllAccepts(lines: seq<string>, ds: seq<Direction>)
    requires |lines| == |ds|
    requires forall k :: 0 <= k < |lines| ==> DirectionFrom(lines[k]) == Ok(ds[k])
    ensures ParseAll(lines) == Ok(ds)
  {
    if lines != [] {
      forall k | 0 <= k < |lines| - 1 ensures DirectionFrom(lines[1..][k]) == Ok(ds[1..][k]) {
        assert lines[1..][k] == lines[k + 1] && ds[1..][k] == ds[k + 1];
      }
      ParseAllAccepts(lines[1..], ds[1..]);
      var first := DirectionFrom(lines[0]);
      assert first == Ok(ds[0]);
      assert ParseAll(lines) == Ok([first.value] + ds[1..]);
      assert ds == [ds[0]] + ds[1..];
    }
  }

  lemma ExampleAnswers()
    ensures var ds := [Forward(5), Down(5), Forward(8), Up(3), Down(8), Forward(2)];
            Travel(ds).horizontal * Travel(ds).depth == 150
            && Steer(ds).at.horizontal * Steer(ds).at.depth == 900
  {
    var p1 := [Forward(5)];
    var p2 := p1 + [Down(5)];
    var p3 := p2 + [Forward(8)];
    var p4 := p3 + [Up(3)];
    var p5 := p4 + [Down(8)];
    var p6 := p5 + [Forward(2)];
    assert p2[..1] == p1 && p3[..2] == p2 && p4[..3] == p3 && p5[..4] == p4 && p6[..5] == p5;
    assert Travel(p1) == Coords(5, 0) && Steer(p1) == Heading(0, Coords(5, 0));
    assert Travel(p2) == Coords(5, 5) && Steer(p2) == Heading(5, Coords(5, 0));
    assert Travel(p3) == Coords(13, 5) && Steer(p3) == Heading(5, Coords(13, 40));
    assert Travel(p4) == Coords(13, 2) && Steer(p4) == Heading(2, Coords(13, 40));
    assert Travel(p5) == Coords(13, 10) && Steer(p5) == Heading(10, Coords(13, 40));
    assert Travel(p6) == Coords(15, 10) && Steer(p6) == Heading(10, Coords(15, 60));
    assert p6 == [Forward(5), Down(5), Forward(8), Up(3), Down(8), Forward(2)];
  }
}
