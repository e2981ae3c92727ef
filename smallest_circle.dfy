/** The smallest enclosing circle problem: an instance is a set of points in
    the plane read from a token sequence, a candidate is a circle centre, and
    the objective of a candidate is the radius of the smallest circle around
    it that contains every point. The model keeps the squared radius. */
module SmallestCircle {
  import opened Wrappers

  /** A point of the plane. */
  datatype Point = Point(x: real, y: real)

  /** The axis-aligned rectangle spanned by a point set. */
  datatype Box = Box(minX: real, maxX: real, minY: real, maxY: real)

  /** Everything a successful load leaves in a problem object. */
  datatype Instance = Instance(nbPoints: int, points: seq<Point>, box: Box)

  /** Why loading an instance fails. `index` is the position of the
      offending token in the token sequence. */
  datatype LoadError =
    | TokenMissing(index: nat)   // the token sequence ends before `index`
    | NotAnInteger(index: nat)   // the point count does not parse as an integer
    | NotANumber(index: nat)     // a coordinate does not parse as a number
    | NoPoints                   // the bounding box of an empty point list

  /** Why evaluating a candidate fails: it does not hold exactly two values. */
  datatype EvalError = WrongArity(length: nat)

  // ---------------------------------------------------------------------
  // Loading
  // ---------------------------------------------------------------------

  /** The number of iterations of a loop over `range(n)`. */
  function RangeLength(n: int): nat
  {
    if n < 0 then 0 else n
  }

  /** The state of the loader's loop: the points read so far, and the error
      that stopped it, if any. */
  datatype Scan = Scan(points: seq<Point>, failure: Option<LoadError>)

  /** The coordinate at token `idx`: an index error past the end of the
      sequence, a value error when the token does not parse. */
  function Coordinate(tokens: seq<string>, parseReal: string -> Option<real>, idx: nat): Result<real, LoadError>
  {
    if idx >= |tokens| then Failure(TokenMissing(idx))
    else match parseReal(tokens[idx])
      case None => Failure(NotANumber(idx))
      case Some(v) => Success(v)
  }

  /** One pass of the loader's loop body: read the pair of coordinates at
      tokens `idx` and `idx + 1` and append it to `acc`. */
  function ReadPoint(tokens: seq<string>, parseReal: string -> Option<real>, idx: nat, acc: seq<Point>): Scan
  {
    match Coordinate(tokens, parseReal, idx)
    case Failure(e) => Scan(acc, Some(e))
    case Success(x) =>
      match Coordinate(tokens, parseReal, idx + 1)
      case Failure(e) => Scan(acc, Some(e))
      case Success(y) => Scan(acc + [Point(x, y)], None)
  }

  /** The state after `n` passes of the loader's loop; the `k`-th pass
      (counting from 1) starts at token `2 * k - 1`. A failed pass ends the
      loop. */
  function ReadPoints(tokens: seq<string>, parseReal: string -> Option<real>, n: nat): Scan
    decreases n
  {
    if n == 0 then Scan([], None)
    else
      var before := ReadPoints(tokens, parseReal, n - 1);
      if before.failure.Some? then before
      else ReadPoint(tokens, parseReal, 2 * n - 1, before.points)
  }

  /** The outcome of loading the instance held in `tokens`: the point count,
      the points and their bounding box, or the first error met. */
  function Load(tokens: seq<string>, parseInt: string -> Option<int>, parseReal: string -> Option<real>): Result<Instance, LoadError>
  {
    if |tokens| == 0 then Failure(TokenMissing(0))
    else match parseInt(tokens[0])
      case None => Failure(NotAnInteger(0))
      case Some(n) =>
        var scan := ReadPoints(tokens, parseReal, RangeLength(n));
        if scan.failure.Some? then Failure(scan.failure.value)
        else if |scan.points| == 0 then Failure(NoPoints)
        else Success(Instance(n, scan.points, BoundingBox(scan.points)))
  }

  /** The token sequences that load: a positive count `n`, followed by at
      least `2 * n` tokens that all parse as numbers. */
  predicate WellFormed(tokens: seq<string>, parseInt: string -> Option<int>, parseReal: string -> Option<real>)
  {
    && |tokens| > 0
    && parseInt(tokens[0]).Some?
    && parseInt(tokens[0]).value >= 1
    && |tokens| >= 1 + 2 * parseInt(tokens[0]).value
    && forall j :: 1 <= j <= 2 * parseInt(tokens[0]).value ==> parseReal(tokens[j]).Some?
  }

  /** Every point the loop has read comes, in order, from the tokens at
      `1 + 2 * i` and `2 + 2 * i`; a loop that did not fail read `n` points. */
  lemma {:induction false} ReadPointsSound(tokens: seq<string>, parseReal: string -> Option<real>, n: nat)
    ensures var s := ReadPoints(tokens, parseReal, n);
      && |s.points| <= n
      && (s.failure.None? ==> |s.points| == n)
      && forall i :: 0 <= i < |s.points| ==>
           && 2 + 2 * i < |tokens|
           && parseReal(tokens[1 + 2 * i]) == Some(s.points[i].x)
           && parseReal(tokens[2 + 2 * i]) == Some(s.points[i].y)
  {
    if n > 0 {
      ReadPointsSound(tokens, parseReal, n - 1);
    }
  }

  /** When the `2 * n` tokens after the count exist and all parse, the loop
      does not fail. */
  lemma {:induction false} ReadPointsComplete(tokens: seq<string>, parseReal: string -> Option<real>, n: nat)
    requires |tokens| >= 1 + 2 * n
    requires forall j :: 1 <= j <= 2 * n ==> parseReal(tokens[j]).Some?
    ensures ReadPoints(tokens, parseReal, n).failure.None?
  {
    if n > 0 {
      ReadPointsComplete(tokens, parseReal, n - 1);
    }
  }

  /** A failed loop reports either the end of the token sequence, at exactly
      the first missing position, or the first coordinate token that does
      not parse. */
  lemma {:induction false} ReadPointsError(tokens: seq<string>, parseReal: string -> Option<real>, n: nat)
    requires |tokens| > 0
    ensures var f := ReadPoints(tokens, parseReal, n).failure;
      f.Some? ==>
        || (&& f.value == TokenMissing(|tokens|) && |tokens| <= 2 * n
            && forall j :: 1 <= j < |tokens| ==> parseReal(tokens[j]).Some?)
        || (&& f.value.NotANumber? && 1 <= f.value.index <= 2 * n && f.value.index < |tokens|
            && parseReal(tokens[f.value.index]).None?
            && forall j :: 1 <= j < f.value.index ==> parseReal(tokens[j]).Some?)
  {
    if n > 0 {
      ReadPointsError(tokens, parseReal, n - 1);
      ReadPointsSound(tokens, parseReal, n - 1);
      var before := ReadPoints(tokens, parseReal, n - 1);
      if before.failure.None? {
        forall j | 1 <= j < 2 * n - 1
          ensures parseReal(tokens[j]).Some?
        {
          var i := (j - 1) / 2;
          assert parseReal(tokens[1 + 2 * i]) == Some(before.points[i].x);
        }
      }
    }
  }

  /** Once a pass fails, later passes do not run: the state stays put. */
  lemma {:induction false} ReadPointsStops(tokens: seq<string>, parseReal: string -> Option<real>, k: nat, n: nat)
    requires k <= n
    requires ReadPoints(tokens, parseReal, k).failure.Some?
    ensures ReadPoints(tokens, parseReal, n) == ReadPoints(tokens, parseReal, k)
    decreases n
  {
    if k < n {
      ReadPointsStops(tokens, parseReal, k, n - 1);
    }
  }

  /** Tokens after the ones a successful loop read do not change what it read. */
  lemma {:induction false} ReadPointsPrefix(tokens: seq<string>, extra: seq<string>, parseReal: string -> Option<real>, n: nat)
    requires ReadPoints(tokens, parseReal, n).failure.None?
    ensures ReadPoints(tokens + extra, parseReal, n) == ReadPoints(tokens, parseReal, n)
  {
    if n > 0 {
      ReadPointsPrefix(tokens, extra, parseReal, n - 1);
      ReadPointsSound(tokens, parseReal, n);
      var before := ReadPoints(tokens, parseReal, n - 1);
      assert (tokens + extra)[2 * n - 1] == tokens[2 * n - 1];
      assert (tokens + extra)[2 * n] == tokens[2 * n];
    }
  }

  /** `Load` in terms of the state its loop ends in. */
  lemma LoadFromScan(tokens: seq<string>, parseInt: string -> Option<int>, parseReal: string -> Option<real>, n: int, s: Scan)
    requires |tokens| > 0 && parseInt(tokens[0]) == Some(n)
    requires ReadPoints(tokens, parseReal, RangeLength(n)) == s
    ensures s.failure.Some? ==> Load(tokens, parseInt, parseReal) == Failure(s.failure.value)
    ensures s.failure.None? && s.points == [] ==> Load(tokens, parseInt, parseReal) == Failure(NoPoints)
    ensures s.failure.None? && s.points != [] ==>
      Load(tokens, parseInt, parseReal) == Success(Instance(n, s.points, BoundingBox(s.points)))
  {
  }

  /** Loading succeeds exactly on well-formed token sequences. */
  lemma LoadSucceedsIffWellFormed(tokens: seq<string>, parseInt: string -> Option<int>, parseReal: string -> Option<real>)
    ensures Load(tokens, parseInt, parseReal).Success? <==> WellFormed(tokens, parseInt, parseReal)
  {
    if |tokens| > 0 && parseInt(tokens[0]).Some? {
      var n := parseInt(tokens[0]).value;
      ReadPointsSound(tokens, parseReal, RangeLength(n));
      if WellFormed(tokens, parseInt, parseReal) {
        ReadPointsComplete(tokens, parseReal, n);
      }
      if Load(tokens, parseInt, parseReal).Success? {
        var s := ReadPoints(tokens, parseReal, n);
        forall j | 1 <= j <= 2 * n
          ensures parseReal(tokens[j]).Some?
        {
          var i := (j - 1) / 2;
          assert parseReal(tokens[1 + 2 * i]) == Some(s.points[i].x);
        }
      }
    }
  }

  /** A loaded instance holds the count it read and exactly that many points,
      point `i` being the pair at tokens `1 + 2 * i` and `2 + 2 * i`. */
  lemma LoadedPointsMatchTokens(tokens: seq<string>, parseInt: string -> Option<int>, parseReal: string -> Option<real>)
    requires Load(tokens, parseInt, parseReal).Success?
    ensures var inst := Load(tokens, parseInt, parseReal).value;
      && |tokens| >= 1 + 2 * |inst.points|
      && parseInt(tokens[0]) == Some(inst.nbPoints)
      && |inst.points| == inst.nbPoints
      && forall i :: 0 <= i < |inst.points| ==>
           && parseReal(tokens[1 + 2 * i]) == Some(inst.points[i].x)
           && parseReal(tokens[2 + 2 * i]) == Some(inst.points[i].y)
  {
    var n := parseInt(tokens[0]).value;
    ReadPointsSound(tokens, parseReal, RangeLength(n));
  }

  /** An empty token sequence fails at token 0; a count `n >= 1` with fewer
      than `1 + 2 * n` tokens fails at the first missing token, unless an
      earlier coordinate does not parse. */
  lemma LoadFailsOnShortInput(tokens: seq<string>, parseInt: string -> Option<int>, parseReal: string -> Option<real>)
    requires |tokens| == 0 || (parseInt(tokens[0]).Some? && parseInt(tokens[0]).value >= 1
                               && |tokens| < 1 + 2 * parseInt(tokens[0]).value)
    ensures var r := Load(tokens, parseInt, parseReal);
      && r.Failure?
      && (|tokens| == 0 ==> r.error == TokenMissing(0))
      && (|tokens| > 0 ==>
            || r.error == TokenMissing(|tokens|)
            || (r.error.NotANumber? && r.error.index < |tokens| && parseReal(tokens[r.error.index]).None?))
  {
    if |tokens| > 0 {
      var n := parseInt(tokens[0]).value;
      ReadPointsSound(tokens, parseReal, n);
      ReadPointsError(tokens, parseReal, n);
    }
  }

  /** A count of zero or less yields no points, and the bounding box of no
      points is an error. */
  lemma LoadFailsWithoutPoints(tokens: seq<string>, parseInt: string -> Option<int>, parseReal: string -> Option<real>)
    requires |tokens| > 0 && parseInt(tokens[0]).Some? && parseInt(tokens[0]).value <= 0
    ensures Load(tokens, parseInt, parseReal) == Failure(NoPoints)
  {
  }

  /** Tokens after the last coordinate are ignored. */
  lemma LoadIgnoresTrailingTokens(tokens: seq<string>, extra: seq<string>, parseInt: string -> Option<int>, parseReal: string -> Option<real>)
    requires Load(tokens, parseInt, parseReal).Success?
    ensures Load(tokens + extra, parseInt, parseReal) == Load(tokens, parseInt, parseReal)
  {
    var n := parseInt(tokens[0]).value;
    assert (tokens + extra)[0] == tokens[0];
    ReadPointsPrefix(tokens, extra, parseReal, RangeLength(n));
  }

  /** The loader's loop: `n` passes over the tokens after the count, each
      appending the pair at `idx` and `idx + 1` and advancing `idx` by 2; an
      index or value error stops it with the points read so far. */
  method ScanPoints(tokens: seq<string>, parseReal: string -> Option<real>, n: nat) returns (scan: Scan)
    ensures scan == ReadPoints(tokens, parseReal, n)
  {
    var points: seq<Point> := [];
    var idx := 1;
    var i := 0;
    while i < n
      invariant 0 <= i <= n
      invariant idx == 1 + 2 * i
      invariant |points| == i
      invariant ReadPoints(tokens, parseReal, i) == Scan(points, None)
    {
      assert ReadPoints(tokens, parseReal, i + 1) == ReadPoint(tokens, parseReal, idx, points);
      var x := Coordinate(tokens, parseReal, idx);
      if x.Failure? {
        ReadPointsStops(tokens, parseReal, i + 1, n);
        return Scan(points, Some(x.error));
      }
      var y := Coordinate(tokens, parseReal, idx + 1);
      if y.Failure? {
        ReadPointsStops(tokens, parseReal, i + 1, n);
        return Scan(points, Some(y.error));
      }
      points := points + [Point(x.value, y.value)];
      idx := idx + 2;
      i := i + 1;
    }
    return Scan(points, None);
  }

  // ---------------------------------------------------------------------
  // Bounding box
  // ---------------------------------------------------------------------

  /** The x coordinates of `ps`, in order. */
  function Xs(ps: seq<Point>): seq<real>
  {
    seq(|ps|, i requires 0 <= i < |ps| => ps[i].x)
  }

  /** The y coordinates of `ps`, in order. */
  function Ys(ps: seq<Point>): seq<real>
  {
    seq(|ps|, i requires 0 <= i < |ps| => ps[i].y)
  }

  /** The first least element of a non-empty sequence, as Python's `min`
      finds it. */
  function MinOf(xs: seq<real>): real
    requires |xs| > 0
  {
    if |xs| == 1 then xs[0]
    else
      var rest := MinOf(xs[1..]);
      if xs[0] <= rest then xs[0] else rest
  }

  /** The first greatest element of a non-empty sequence, as Python's `max`
      finds it. */
  function MaxOf(xs: seq<real>): real
    requires |xs| > 0
  {
    if |xs| == 1 then xs[0]
    else
      var rest := MaxOf(xs[1..]);
      if xs[0] >= rest then xs[0] else rest
  }

  /** `MinOf` is a lower bound of the sequence and one of its elements. */
  lemma {:induction false} MinOfIsLeast(xs: seq<real>)
    requires |xs| > 0
    ensures forall i :: 0 <= i < |xs| ==> MinOf(xs) <= xs[i]
    ensures exists i :: 0 <= i < |xs| && xs[i] == MinOf(xs)
  {
    if |xs| > 1 {
      MinOfIsLeast(xs[1..]);
      assert forall i :: 1 <= i < |xs| ==> xs[i] == xs[1..][i - 1];
      var k :| 0 <= k < |xs[1..]| && xs[1..][k] == MinOf(xs[1..]);
      assert xs[k + 1] == MinOf(xs[1..]);
      assert xs[0] == MinOf(xs) || xs[k + 1] == MinOf(xs);
    } else {
      assert xs[0] == MinOf(xs);
    }
  }

  /** `MaxOf` is an upper bound of the sequence and one of its elements. */
  lemma {:induction false} MaxOfIsGreatest(xs: seq<real>)
    requires |xs| > 0
    ensures forall i :: 0 <= i < |xs| ==> xs[i] <= MaxOf(xs)
    ensures exists i :: 0 <= i < |xs| && xs[i] == MaxOf(xs)
  {
    if |xs| > 1 {
      MaxOfIsGreatest(xs[1..]);
      assert forall i :: 1 <= i < |xs| ==> xs[i] == xs[1..][i - 1];
      var k :| 0 <= k < |xs[1..]| && xs[1..][k] == MaxOf(xs[1..]);
      assert xs[k + 1] == MaxOf(xs[1..]);
      assert xs[0] == MaxOf(xs) || xs[k + 1] == MaxOf(xs);
    } else {
      assert xs[0] == MaxOf(xs);
    }
  }

  /** The bounding box of a non-empty point list: the least and greatest x
      and y coordinates. */
  function BoundingBox(ps: seq<Point>): Box
    requires |ps| > 0
  {
    Box(MinOf(Xs(ps)), MaxOf(Xs(ps)), MinOf(Ys(ps)), MaxOf(Ys(ps)))
  }

  /** The bounding box encloses every point, and each of its four sides
      touches some point. */
  lemma BoundingBoxEncloses(ps: seq<Point>)
    requires |ps| > 0
    ensures var b := BoundingBox(ps);
      && (forall i :: 0 <= i < |ps| ==> b.minX <= ps[i].x <= b.maxX && b.minY <= ps[i].y <= b.maxY)
      && (exists i :: 0 <= i < |ps| && ps[i].x == b.minX)
      && (exists i :: 0 <= i < |ps| && ps[i].x == b.maxX)
      && (exists i :: 0 <= i < |ps| && ps[i].y == b.minY)
      && (exists i :: 0 <= i < |ps| && ps[i].y == b.maxY)
  {
    var xs, ys := Xs(ps), Ys(ps);
    MinOfIsLeast(xs);
    MaxOfIsGreatest(xs);
    MinOfIsLeast(ys);
    MaxOfIsGreatest(ys);
    assert forall i :: 0 <= i < |ps| ==> xs[i] == ps[i].x && ys[i] == ps[i].y;
  }

  // ---------------------------------------------------------------------
  // Objective
  // ---------------------------------------------------------------------

  /** The squared Euclidean distance between `c` and `p`: never negative,
      and zero from a point to itself. */
  function SqDist(c: Point, p: Point): (d: real)
    ensures d >= 0.0
    ensures c == p ==> d == 0.0
  {
    var dx := c.x - p.x;
    var dy := c.y - p.y;
    SquareNonNegative(dx);
    SquareNonNegative(dy);
    dx * dx + dy * dy
  }

  /** A square is never negative. */
  lemma SquareNonNegative(a: real)
    ensures a * a >= 0.0
  {
    if a < 0.0 {
      var b := -a;
      assert b * b >= 0.0;
      assert a * a == b * b;
    }
  }

  /** The running maximum of the squared distances from `c` to the points of
      `ps`, scanned in order from a start of 0 and replaced only by a
      strictly greater distance. */
  function MaxSqDist(c: Point, ps: seq<Point>): real
    decreases |ps|
  {
    if ps == [] then 0.0
    else
      var m := MaxSqDist(c, ps[..|ps| - 1]);
      var d := SqDist(c, ps[|ps| - 1]);
      if d > m then d else m
  }

  /** The running maximum is never negative, at least the squared distance of
      every point, and, for a non-empty list, the squared distance of one of
      them; for no points it is 0. */
  lemma {:induction false} MaxSqDistIsMaximum(c: Point, ps: seq<Point>)
    ensures MaxSqDist(c, ps) >= 0.0
    ensures forall i :: 0 <= i < |ps| ==> SqDist(c, ps[i]) <= MaxSqDist(c, ps)
    ensures ps == [] ==> MaxSqDist(c, ps) == 0.0
    ensures ps != [] ==> exists i :: 0 <= i < |ps| && SqDist(c, ps[i]) == MaxSqDist(c, ps)
    decreases |ps|
  {
    if ps != [] {
      var front := ps[..|ps| - 1];
      MaxSqDistIsMaximum(c, front);
      assert forall i :: 0 <= i < |front| ==> ps[i] == front[i];
      if front != [] {
        var k :| 0 <= k < |front| && SqDist(c, front[k]) == MaxSqDist(c, front);
        assert SqDist(c, ps[k]) == MaxSqDist(c, front);
      }
    }
  }

  /** A circle of squared radius `m` around `c` encloses every point exactly
      when `m` is at least the objective: the objective is the smallest such
      squared radius. */
  lemma {:induction false} MaxSqDistIsLeastBound(c: Point, ps: seq<Point>, m: real)
    ensures (m >= 0.0 && forall i :: 0 <= i < |ps| ==> SqDist(c, ps[i]) <= m) <==> MaxSqDist(c, ps) <= m
  {
    MaxSqDistIsMaximum(c, ps);
    if MaxSqDist(c, ps) <= m && ps != [] {
      var k :| 0 <= k < |ps| && SqDist(c, ps[k]) == MaxSqDist(c, ps);
    }
  }

  /** The objective does not depend on the order of the points. */
  lemma MaxSqDistOrderIrrelevant(c: Point, ps: seq<Point>, qs: seq<Point>)
    requires multiset(ps) == multiset(qs)
    ensures MaxSqDist(c, ps) == MaxSqDist(c, qs)
  {
    MaxSqDistIsMaximum(c, ps);
    MaxSqDistIsMaximum(c, qs);
    var mp, mq := MaxSqDist(c, ps), MaxSqDist(c, qs);
    if ps != [] {
      assert ps[0] in multiset(qs);
      var i :| 0 <= i < |ps| && SqDist(c, ps[i]) == mp;
      assert ps[i] in multiset(ps);
      assert ps[i] in qs;
      var j :| 0 <= j < |qs| && qs[j] == ps[i];
      assert mp <= mq;
      assert qs != [];
      var k :| 0 <= k < |qs| && SqDist(c, qs[k]) == mq;
      assert qs[k] in multiset(qs);
      assert qs[k] in ps;
      var l :| 0 <= l < |ps| && ps[l] == qs[k];
      assert mq <= mp;
    } else {
      assert qs == [];
    }
  }

  /** A single point placed at the candidate gives objective 0. */
  lemma SinglePointAtCandidate(p: Point)
    ensures MaxSqDist(p, [p]) == 0.0
  {
  }

  /** A single point shifted by `d` along x from the candidate gives squared
      radius `d * d`, that is radius `|d|`. */
  lemma SinglePointShifted(px: real, py: real, d: real)
    ensures MaxSqDist(Point(px + d, py), [Point(px, py)]) == d * d
  {
  }

  // ---------------------------------------------------------------------
  // The problem object
  // ---------------------------------------------------------------------

  class SmallestCircleProblem {
    var nbPoints: int
    var points: seq<Point>
    var minX: real
    var maxX: real
    var minY: real
    var maxY: real

    /** The bounding-box fields as one value. */
    function Bounds(): Box
      reads this
    {
      Box(minX, maxX, minY, maxY)
    }

    /** The whole loaded state as one value. */
    function AsInstance(): Instance
      reads this
    {
      Instance(nbPoints, points, Bounds())
    }

    /** A loaded object: at least one point, as many as its count, and the
        bounding-box fields those of its points. */
    ghost predicate Valid()
      reads this
    {
      && nbPoints >= 1
      && |points| == nbPoints
      && Bounds() == BoundingBox(points)
    }

    /** An object whose instance has not been loaded yet. */
    constructor ()
      ensures nbPoints == 0 && points == []
      ensures Bounds() == Box(0.0, 0.0, 0.0, 0.0)
    {
      nbPoints := 0;
      points := [];
      minX, maxX, minY, maxY := 0.0, 0.0, 0.0, 0.0;
    }

    /** Create a problem object and load its instance from `tokens`; the
        outcome is `Load`'s. */
    static method Create(tokens: seq<string>, parseInt: string -> Option<int>, parseReal: string -> Option<real>)
      returns (r: Result<SmallestCircleProblem, LoadError>)
      ensures r.Success? <==> Load(tokens, parseInt, parseReal).Success?
      ensures r.Failure? ==> r.error == Load(tokens, parseInt, parseReal).error
      ensures r.Success? ==>
        && fresh(r.value)
        && r.value.Valid()
        && r.value.AsInstance() == Load(tokens, parseInt, parseReal).value
    {
      var problem := new SmallestCircleProblem();
      var outcome := problem.LoadInstance(tokens, parseInt, parseReal);
      if outcome.Fail? {
        return Failure(outcome.error);
      }
      return Success(problem);
    }

    /** Read the point count, then the points pair by pair (`ScanPoints`),
        then compute the bounding box. On success the object holds `Load`'s
        instance. On a failure the fields assigned before it keep their new
        values: the count once it has parsed, the points read before the
        failing pass; the bounding-box fields are untouched. */
    method LoadInstance(tokens: seq<string>, parseInt: string -> Option<int>, parseReal: string -> Option<real>)
      returns (outcome: Outcome<LoadError>)
      modifies this
      ensures var r := Load(tokens, parseInt, parseReal);
        && (r.Success? ==> outcome == Pass && Valid() && AsInstance() == r.value)
        && (r.Failure? ==> outcome == Fail(r.error))
      ensures |tokens| == 0 || parseInt(tokens[0]).None? ==> unchanged(this)
      ensures |tokens| > 0 && parseInt(tokens[0]).Some? && outcome.Fail? ==>
        && nbPoints == parseInt(tokens[0]).value
        && points == ReadPoints(tokens, parseReal, RangeLength(nbPoints)).points
        && Bounds() == old(Bounds())
    {
      if |tokens| == 0 {
        return Fail(TokenMissing(0));
      }
      var count := parseInt(tokens[0]);
      if count.None? {
        return Fail(NotAnInteger(0));
      }
      nbPoints := count.value;
      var scan := ScanPoints(tokens, parseReal, RangeLength(nbPoints));
      points := scan.points;
      LoadFromScan(tokens, parseInt, parseReal, nbPoints, scan);
      if scan.failure.Some? {
        return Fail(scan.failure.value);
      }
      if |points| == 0 {
        return Fail(NoPoints);
      }
      assert |points| == nbPoints by {
        ReadPointsSound(tokens, parseReal, RangeLength(nbPoints));
      }
      var xs := Xs(points);
      var ys := Ys(points);
      minX := MinOf(xs);
      maxX := MaxOf(xs);
      minY := MinOf(ys);
      maxY := MaxOf(ys);
      assert Bounds() == BoundingBox(points);
      return Pass;
    }

    /** The squared radius of the smallest circle centred at `candidate`
        that encloses every point, or an error when the candidate does not
        hold exactly two values. */
    method EvaluateSolution(candidate: seq<real>) returns (r: Result<real, EvalError>)
      ensures |candidate| != 2 ==> r == Failure(WrongArity(|candidate|))
      ensures |candidate| == 2 ==> r == Success(MaxSqDist(Point(candidate[0], candidate[1]), points))
    {
      if |candidate| != 2 {
        return Failure(WrongArity(|candidate|));
      }
      var xCenter, yCenter := candidate[0], candidate[1];
      var center := Point(xCenter, yCenter);
      var maxSqDist := 0.0;
      var i := 0;
      while i < |points|
        invariant 0 <= i <= |points|
        invariant maxSqDist == MaxSqDist(center, points[..i])
      {
        var dx := xCenter - points[i].x;
        var dy := yCenter - points[i].y;
        var sqDist := dx * dx + dy * dy;
        assert sqDist == SqDist(center, points[i]);
        assert points[..i + 1][..i] == points[..i];
        assert points[..i + 1][i] == points[i];
        if sqDist > maxSqDist {
          maxSqDist := sqDist;
        }
        i := i + 1;
      }
      assert points[..i] == points;
      return Success(maxSqDist);
    }

    /** A candidate drawn from the bounding box, given the two draws `u` and
        `v` of a uniform source on [0, 1]: it has two values, each within its
        side of the box, and a side of zero width gives that side's value. */
    method RandomSolution(u: real, v: real) returns (c: seq<real>)
      requires Valid()
      requires 0.0 <= u <= 1.0 && 0.0 <= v <= 1.0
      ensures |c| == 2
      ensures minX <= c[0] <= maxX && minY <= c[1] <= maxY
      ensures minX == maxX ==> c[0] == minX
      ensures minY == maxY ==> c[1] == minY
    {
      var xRand := Uniform(minX, maxX, u);
      var yRand := Uniform(minY, maxY, v);
      c := [xRand, yRand];
    }
  }

  /** `a + (b - a) * u`, the value a uniform draw `u` on [0, 1] stands for on
      the interval [a, b]: it lies in [a, b], and both ends are reached. */
  function Uniform(a: real, b: real, u: real): (r: real)
    requires a <= b && 0.0 <= u <= 1.0
    ensures a <= r <= b
    ensures u == 0.0 ==> r == a
    ensures u == 1.0 ==> r == b
    ensures a == b ==> r == a
  {
    var w := b - a;
    ProductNonNegative(w, u);
    ProductNonNegative(w, 1.0 - u);
    assert w * (1.0 - u) == w - w * u;
    a + w * u
  }

  /** The product of two non-negative numbers is non-negative. */
  lemma ProductNonNegative(p: real, q: real)
    requires p >= 0.0 && q >= 0.0
    ensures p * q >= 0.0
  {
  }
}
