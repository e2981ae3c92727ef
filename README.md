# Smallest enclosing circle: a Dafny model

The repository defines one optimisation problem for an external solver
framework, the class `SmallestCircleProblem`. Given a set of points in the
plane, a candidate solution is a circle centre `[x, y]`. Its objective is the
radius of the smallest circle around that centre that holds every point,
which is the distance to the farthest point. The class has three parts:

- the instance loader. It reads a point count and then that many `(x, y)`
  pairs from a whitespace-separated token list, and it computes the bounding
  box of the points;
- the objective, `evaluate_solution`. It rejects a candidate that does not
  hold exactly two values. It then scans the points once and keeps the
  running maximum of the squared distances;
- `random_solution`. It draws a candidate uniformly from the bounding box.

The model has three modules:

- `Wrappers` (`wrappers.dfy`): `Option`, `Result` and `Outcome`.
- `SmallestCircle` (`smallest_circle.dfy`): the model itself.
  - Pure specification functions: `Coordinate`, `ReadPoint`, `ReadPoints`,
    `Load`, `BoundingBox`, `MinOf`, `MaxOf`, `SqDist`, `MaxSqDist`,
    `Uniform`.
  - The lemmas about those functions.
  - The loader's token loop, `ScanPoints`, a method proved equal to
    `ReadPoints`.
  - The class `SmallestCircleProblem` with the source's fields (`nbPoints`,
    `points`, `minX`, `maxX`, `minY`, `maxY`). `LoadInstance` sets these
    fields. `EvaluateSolution` and `RandomSolution` only read them.
- `SmallestCircleScenarios` (`scenarios.dfy`): concrete instances worked
  through the model, and a client of the class.

Modelling decisions:

- Coordinates are Dafny `real`s. Floating-point rounding is not modelled.
- The file contents are a token sequence, `seq<string>`. The conversions
  `int(...)` and `float(...)` are parameters
  `parseInt: string -> Option<int>` and `parseReal: string -> Option<real>`.
  `None` stands for a `ValueError`.
- Python's exceptions become `LoadError` and `EvalError` values:
  - `TokenMissing(i)` is the `IndexError` of reading token `i` past the end.
  - `NotAnInteger(0)` and `NotANumber(i)` are the `ValueError` of `int` and
    `float`.
  - `NoPoints` is the `ValueError` of `min` over an empty list.
  - `WrongArity(n)` is the `ValueError` that `evaluate_solution` raises.
- The constructor `__init__` raises when loading fails. It is modelled as
  `SmallestCircleProblem.Create`, which returns a `Result`.
- Edge cases of the loader, as the code handles them:
  - A count of zero or less makes `range` empty
    (smallest_circle_problem.py:41). `min([])` then raises
    (smallest_circle_problem.py:49), so the load fails with `NoPoints`.
  - The code accepts any integer count from `int` and does not reject a
    negative one up front.
  - Tokens after the last coordinate are ignored.
- `evaluate_solution` returns `math.sqrt(max_sq_dist)`. The model returns
  `max_sq_dist`, the squared radius. Square root is monotone, so the squared
  radius orders candidates the same way.

## Model

| member | source | states |
|---|---|---|
| `SmallestCircle.ScanPoints` | smallest_circle_problem.py:39-45 | The token loop, which walks `idx` from 1 in steps of 2 and appends one point per pass, ends in exactly the state `ReadPoints` gives: the points read in order, plus the index or value error that stopped it, if any. |
| `SmallestCircle.ReadPointsSound` | smallest_circle_problem.py:40-45 | After `n` passes, at most `n` points have been read, and exactly `n` if no pass failed. Point `i` is the pair parsed from tokens `1 + 2i` and `2 + 2i`, and both tokens exist. |
| `SmallestCircle.ReadPointsComplete` | smallest_circle_problem.py:40-45 | If the `2n` tokens after the count exist and all of them parse, the loop does not fail. |
| `SmallestCircle.ReadPointsError` | smallest_circle_problem.py:41-43 | A failed loop reports one of two errors. Either the sequence ended while every coordinate token present parses, and the error names exactly the first missing index, `len(tokens)`. Or the error names the first coordinate token, in file order, that does not parse; its index lies in `[1, 2n]`. |
| `SmallestCircle.ReadPointsStops` | smallest_circle_problem.py:41-45 | Once a pass raises, no later pass runs: the state after any larger number of passes is the same. |
| `SmallestCircle.ReadPointsPrefix` | smallest_circle_problem.py:40-45 | Appending tokens after a successful loop does not change the points it read. |
| `SmallestCircle.LoadSucceedsIffWellFormed` | smallest_circle_problem.py:36-52 | Loading succeeds if and only if four things hold: there is a first token, it parses as an integer `n >= 1`, at least `1 + 2n` tokens are present, and every coordinate token parses. |
| `SmallestCircle.LoadedPointsMatchTokens` | smallest_circle_problem.py:38-45 | After a successful load, `nb_points` is the parsed first token and `len(points) == nb_points`. Point `i` is `(tokens[1+2i], tokens[2+2i])` parsed, in input order. |
| `SmallestCircle.LoadFailsOnShortInput` | smallest_circle_problem.py:36-43 | An empty token list fails at token 0. A count `n >= 1` with fewer than `1 + 2n` tokens fails at index `len(tokens)`, unless an earlier coordinate token does not parse. |
| `SmallestCircle.LoadFailsWithoutPoints` | smallest_circle_problem.py:38-49 | A count `<= 0` gives an empty point list, and `min` over it makes the load fail with `NoPoints`. |
| `SmallestCircle.LoadIgnoresTrailingTokens` | smallest_circle_problem.py:36-45 | Extra tokens after a loadable instance leave the loaded instance unchanged. |
| `SmallestCircle.MinOfIsLeast` | smallest_circle_problem.py:49-51 | `min` of a non-empty list is at most every element and is one of the elements. |
| `SmallestCircle.MaxOfIsGreatest` | smallest_circle_problem.py:50-52 | `max` of a non-empty list is at least every element and is one of the elements. |
| `SmallestCircle.BoundingBoxEncloses` | smallest_circle_problem.py:47-52 | For every point, `min_x <= x_i <= max_x` and `min_y <= y_i <= max_y`. Each of the four bounds is reached by some point. |
| `SmallestCircle.SqDist` | smallest_circle_problem.py:69-71 | The squared distance `dx*dx + dy*dy` is never negative, and it is zero from a point to itself. |
| `SmallestCircle.MaxSqDistIsMaximum` | smallest_circle_problem.py:67-73 | The running maximum `max_sq_dist` is `>= 0` and `>=` the squared distance of every point. For a non-empty list it equals the squared distance of some point. For no points it is the initial `0.0`. |
| `SmallestCircle.MaxSqDistIsLeastBound` | smallest_circle_problem.py:67-74 | A squared radius `m` encloses every point around the candidate if and only if `m >= 0` and `m` is at least the objective. So the objective is the smallest enclosing squared radius. |
| `SmallestCircle.MaxSqDistOrderIrrelevant` | smallest_circle_problem.py:68-73 | Two point lists that are permutations of each other give the same objective. |
| `SmallestCircle.SinglePointAtCandidate` | smallest_circle_problem.py:67-74 | A single point placed at the candidate gives objective 0. |
| `SmallestCircle.SinglePointShifted` | smallest_circle_problem.py:67-74 | A single point at `(px, py)` with candidate `(px + d, py)` gives squared radius `d*d`, that is, radius `abs(d)`. |
| `SmallestCircle.Uniform` | smallest_circle_problem.py:81-82 | `random.uniform(a, b)` as `a + (b - a) * u` for a draw `u` in `[0, 1]`. The value lies in `[a, b]`. It is `a` for `u = 0` and `b` for `u = 1`, and it is `a` when `a == b`. |
| `SmallestCircle.SmallestCircleProblem.Create` | smallest_circle_problem.py:24-26 | Construction succeeds exactly when `Load` does and fails with `Load`'s error otherwise. A new object is valid and holds `Load`'s instance. |
| `SmallestCircle.SmallestCircleProblem.LoadInstance` | smallest_circle_problem.py:28-52 | On success the fields hold the parsed count, the points and their bounding box, and the object is valid. On failure the error is `Load`'s. The fields assigned before the error keep their new values: `nb_points` once it has parsed, and `points` as the points read before the failing pass. The bounding-box fields are untouched. If the count is missing or does not parse, nothing is changed. |
| `SmallestCircle.SmallestCircleProblem.EvaluateSolution` | smallest_circle_problem.py:54-74 | An error exactly when the candidate's length is not 2. Otherwise the result is the running maximum of the squared distances from `(candidate[0], candidate[1])` to the points. It has no `modifies` clause, so it changes no field. |
| `SmallestCircle.SmallestCircleProblem.RandomSolution` | smallest_circle_problem.py:76-83 | For draws `u`, `v` in `[0, 1]` it returns two values with `min_x <= x <= max_x` and `min_y <= y <= max_y`. A box side of zero width always yields that side's value. |
| `SmallestCircleScenarios.SquareLoads` | smallest_circle_problem.py:35-52 | The tokens `4 0 0 2 0 0 2 2 2` load as the four corners in file order, with bounds `min_x = 0`, `max_x = 2`, `min_y = 0`, `max_y = 2`. |
| `SmallestCircleScenarios.TruncatedSquareFails` | smallest_circle_problem.py:41-43 | Remove the last token of the square and the fourth point has no y coordinate. The load fails at token 8. |
| `SmallestCircleScenarios.SquareObjective` | smallest_circle_problem.py:64-74 | For the square, the candidate `(1, 1)` has squared radius 2, that is, radius `sqrt(2)`. |
| `SmallestCircleScenarios.VerticalLineBox` | smallest_circle_problem.py:47-52 | Three points that share x = 1 give `min_x == max_x == 1`. |

## Left out

- File access and path resolution (`os.path.isabs`, `os.path.join`, `open`, `read`). The model starts from the token sequence.
- `str.split()`, which turns the file text into tokens. It is not modelled.
- The exact behaviour of `int(...)` and `float(...)` on strings. It is abstracted as the two parser parameters.
- Python's `float` also accepts `nan` and `inf`. These have no `real` counterpart, so the model assumes `parseReal` yields finite numbers.
- IEEE floating point: rounding, overflow of `dx * dx` to infinity, and NaN comparisons. Coordinates and distances are exact reals.
- SmallestCircle.SmallestCircleProblem.EvaluateSolution: returns the squared radius `max_sq_dist` rather than `math.sqrt(max_sq_dist)`. Dafny has no square root on `real` that could be used here without an axiom.
- SmallestCircle.SmallestCircleProblem.RandomSolution: takes the two draws of the process-wide random generator as parameters `u` and `v`. It says nothing about their distribution, only where the result lies.
- SmallestCircle.SmallestCircleProblem.LoadInstance: the source appends each point to `self.points` in place. The model gathers the points in `ScanPoints` and assigns the list once. The list is created fresh by the loader, so the resulting state is the same.
- The `instance_file` attribute stored by `__init__` is not modelled, because nothing in the core reads it.
- The `qubots.base_problem.BaseProblem` base class is an external framework and is not part of this model.
- A candidate is a `seq<real>`. Python would accept any sized iterable, and its unpacking of non-numeric values is not modelled.
