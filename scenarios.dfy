/** Concrete instances worked through the model: four corners of a square,
    three points on a vertical line, and a client of the problem object. */
module SmallestCircleScenarios {
  import opened Wrappers
  import opened SmallestCircle

  /** The corners (0, 0), (2, 0), (0, 2) and (2, 2). */
  function Square(): seq<Point>
  {
    [Point(0.0, 0.0), Point(2.0, 0.0), Point(0.0, 2.0), Point(2.0, 2.0)]
  }

  /** The instance file "4  0 0  2 0  0 2  2 2" as tokens. */
  function SquareTokens(): seq<string>
  {
    ["4", "0", "0", "2", "0", "0", "2", "2", "2"]
  }

  /** An integer parser that knows the tokens of the square. */
  function ParseSmallInt(s: string): Option<int>
  {
    if s == "0" then Some(0)
    else if s == "2" then Some(2)
    else if s == "4" then Some(4)
    else None
  }

  /** A number parser that knows the tokens of the square. */
  function ParseSmallReal(s: string): Option<real>
  {
    if s == "0" then Some(0.0)
    else if s == "2" then Some(2.0)
    else if s == "4" then Some(4.0)
    else None
  }

  /** The square loads as four points in file order, with bounds [0, 2] on
      both axes. */
  lemma SquareLoads()
    ensures Load(SquareTokens(), ParseSmallInt, ParseSmallReal)
         == Success(Instance(4, Square(), Box(0.0, 2.0, 0.0, 2.0)))
  {
    var t := SquareTokens();
    assert ReadPoints(t, ParseSmallReal, 1) == Scan(Square()[..1], None);
    assert ReadPoints(t, ParseSmallReal, 2) == Scan(Square()[..2], None);
    assert ReadPoints(t, ParseSmallReal, 3) == Scan(Square()[..3], None);
    assert ReadPoints(t, ParseSmallReal, 4) == Scan(Square(), None);
    assert Xs(Square()) == [0.0, 2.0, 0.0, 2.0];
    assert Ys(Square()) == [0.0, 0.0, 2.0, 2.0];
  }

  /** The square is cut short when a token is missing: dropping the last
      token leaves the fourth point without its y coordinate. */
  lemma TruncatedSquareFails()
    ensures Load(SquareTokens()[..8], ParseSmallInt, ParseSmallReal) == Failure(TokenMissing(8))
  {
    var t := SquareTokens()[..8];
    assert ReadPoints(t, ParseSmallReal, 3) == Scan(Square()[..3], None);
    assert ReadPoints(t, ParseSmallReal, 4) == Scan(Square()[..3], Some(TokenMissing(8)));
  }

  /** From the centre (1, 1) every corner is at squared distance 2, so the
      objective is 2, a radius of the square root of 2. */
  lemma SquareObjective()
    ensures MaxSqDist(Point(1.0, 1.0), Square()) == 2.0
  {
    var c := Point(1.0, 1.0);
    assert MaxSqDist(c, Square()[..1]) == 2.0;
    assert MaxSqDist(c, Square()[..2]) == 2.0;
    assert MaxSqDist(c, Square()[..3]) == 2.0;
    assert Square()[..4] == Square();
  }

  /** Three points with the same x coordinate give a box of zero width. */
  lemma VerticalLineBox()
    ensures BoundingBox([Point(1.0, 0.0), Point(1.0, 5.0), Point(1.0, -2.0)]) == Box(1.0, 1.0, -2.0, 5.0)
  {
    var ps := [Point(1.0, 0.0), Point(1.0, 5.0), Point(1.0, -2.0)];
    assert Xs(ps) == [1.0, 1.0, 1.0];
    assert Ys(ps) == [0.0, 5.0, -2.0];
  }

  /** A caller of the problem object: load the square, score the centre,
      send candidates of the wrong length, draw a random candidate. */
  method SquareClient(u: real, v: real)
    requires 0.0 <= u <= 1.0 && 0.0 <= v <= 1.0
  {
    SquareLoads();
    var r := SmallestCircleProblem.Create(SquareTokens(), ParseSmallInt, ParseSmallReal);
    assert r.Success?;
    var problem := r.value;
    assert problem.points == Square();

    var score := problem.EvaluateSolution([1.0, 1.0]);
    SquareObjective();
    assert score == Success(2.0);

    var tooShort := problem.EvaluateSolution([1.0]);
    assert tooShort == Failure(WrongArity(1));
    var tooLong := problem.EvaluateSolution([1.0, 2.0, 3.0]);
    assert tooLong == Failure(WrongArity(3));

    var c := problem.RandomSolution(u, v);
    assert |c| == 2 && 0.0 <= c[0] <= 2.0 && 0.0 <= c[1] <= 2.0;
    var again := problem.EvaluateSolution(c);
    assert again.Success?;
  }
}
