/**
 The geometric vocabulary of the fractal tree generator: the eight growth
 directions, the exact coordinates a segment's end point is computed in,
 the two segment colours and the vertex a tree buffers.

 Coordinates are exact numbers of the form `a + b * sqrt(2)` with rational
 `a` and `b`. The generator's offsets are powers of two (cardinal steps) and
 `sqrt(2^(2L) / 2) = 2^L / 2 * sqrt(2)` (diagonal steps), so every point it
 ever computes lies in that number field and no rounding is needed.
 */
module Geometry {

  type Byte = x: nat | x < 256
  type U16 = x: nat | x < 0x1_0000

  /** An index as the tree buffers it: a `u32`, with `as u32` truncating modulo 2^32. */
  const U32_LIMIT: nat := 0x1_0000_0000
  type U32 = x: nat | x < U32_LIMIT

  /** The eight compass directions, with the discriminants 0..7 of the enum. */
  datatype Direction =
    | Left | UpperLeft | Up | UpperRight | Right | LowerRight | Down | LowerLeft

  /** The order in which an internal branch tries the eight directions. */
  const GROWTH_DIRECTIONS: seq<Direction> :=
    [Left, UpperLeft, Up, UpperRight, Right, LowerRight, Down, LowerLeft]

  /** The enum discriminant (`direction as u32`); it is the direction's position in GROWTH_DIRECTIONS. */
  function Index(d: Direction): (i: nat)
    ensures i < |GROWTH_DIRECTIONS| == 8 && GROWTH_DIRECTIONS[i] == d
  {
    match d
    case Left => 0
    case UpperLeft => 1
    case Up => 2
    case UpperRight => 3
    case Right => 4
    case LowerRight => 5
    case Down => 6
    case LowerLeft => 7
  }

  /** The discriminant of the direction at position `i` of GROWTH_DIRECTIONS is `i`. */
  lemma {:induction false} IndexAt(i: nat)
    requires i < |GROWTH_DIRECTIONS|
    ensures Index(GROWTH_DIRECTIONS[i]) == i
  {
  }

  /** Comparing discriminants, as the generator does, is comparing directions. */
  lemma {:induction false} IndexInjective(d: Direction, e: Direction)
    ensures Index(d) == Index(e) <==> d == e
  {
  }

  predicate IsDiagonal(d: Direction) {
    d.UpperLeft? || d.UpperRight? || d.LowerRight? || d.LowerLeft?
  }

  /** `rational + root2 * sqrt(2)`. */
  datatype Surd = Surd(rational: real, root2: real)

  const ZERO := Surd(0.0, 0.0)

  function Add(a: Surd, b: Surd): Surd {
    Surd(a.rational + b.rational, a.root2 + b.root2)
  }

  function Sub(a: Surd, b: Surd): Surd {
    Surd(a.rational - b.rational, a.root2 - b.root2)
  }

  function Mul(a: Surd, b: Surd): Surd {
    Surd(a.rational * b.rational + 2.0 * a.root2 * b.root2,
         a.rational * b.root2 + a.root2 * b.rational)
  }

  /** Mul on explicit components, so that literal zeros cancel without nonlinear reasoning. */
  lemma {:induction false} MulOf(a: Surd, b: Surd, r1: real, s1: real, r2: real, s2: real)
    requires a == Surd(r1, s1) && b == Surd(r2, s2)
    ensures Mul(a, b) == Surd(r1 * r2 + 2.0 * (s1 * s2), r1 * s2 + s1 * r2)
  {
  }

  datatype Point = Point(x: Surd, y: Surd)

  const ORIGIN := Point(ZERO, ZERO)

  /** Fractal units to normalised device coordinates, per axis. */
  const X_SCALE: real := 1.0 / 256.0
  const Y_SCALE: real := 1.0 / 256.0

  function Pow2(n: nat): (p: real)
    ensures p >= 1.0
  {
    if n == 0 then 1.0 else 2.0 * Pow2(n - 1)
  }

  lemma {:induction false} Pow2Add(m: nat, n: nat)
    ensures Pow2(m + n) == Pow2(m) * Pow2(n)
  {
    if m > 0 {
      Pow2Add(m - 1, n);
    }
  }

  /** `scale * 2^level`: one axis of a cardinal step. */
  function CardinalStep(scale: real, level: nat): Surd {
    Surd(scale * Pow2(level), 0.0)
  }

  /** `scale * sqrt(2^(2 level) / 2)`, written exactly as `(scale * 2^level / 2) sqrt(2)`: one axis of a diagonal step. */
  function DiagonalStep(scale: real, level: nat): Surd {
    Surd(0.0, scale * Pow2(level) / 2.0)
  }

  /** DiagonalStep is the positive square root of `scale^2 * 2^(2 level) / 2`. */
  lemma {:induction false} DiagonalIsSquareRoot(scale: real, level: nat)
    requires scale > 0.0
    ensures Mul(DiagonalStep(scale, level), DiagonalStep(scale, level))
            == Surd(scale * scale * Pow2(2 * level) / 2.0, 0.0)
    ensures DiagonalStep(scale, level).rational == 0.0 && DiagonalStep(scale, level).root2 > 0.0
  {
    var p := Pow2(level);
    var h := scale * p / 2.0;
    MulOf(DiagonalStep(scale, level), DiagonalStep(scale, level), 0.0, h, 0.0, h);
    Pow2Add(level, level);
    assert Pow2(2 * level) == p * p;
    assert 2.0 * h * h == scale * scale * (p * p) / 2.0;
  }

  /** The end point of the segment that grows from `start` towards `d` at `level`. */
  function EndPoint(start: Point, d: Direction, level: nat): Point {
    var cx, cy := CardinalStep(X_SCALE, level), CardinalStep(Y_SCALE, level);
    var gx, gy := DiagonalStep(X_SCALE, level), DiagonalStep(Y_SCALE, level);
    match d
    case Left => Point(Sub(start.x, cx), start.y)
    case UpperLeft => Point(Sub(start.x, gx), Sub(start.y, gy))
    case Up => Point(start.x, Sub(start.y, cy))
    case UpperRight => Point(Add(start.x, gx), Sub(start.y, gy))
    case Right => Point(Add(start.x, cx), start.y)
    case LowerRight => Point(Add(start.x, gx), Add(start.y, gy))
    case Down => Point(start.x, Add(start.y, cy))
    case LowerLeft => Point(Sub(start.x, gx), Add(start.y, gy))
  }

  /** The compass vector of a direction, components in -1..1. Up moves to smaller y, as the generator computes its end point, so Up is (0, -1). */
  function Compass(d: Direction): (v: (int, int))
    ensures -1 <= v.0 <= 1 && -1 <= v.1 <= 1 && v != (0, 0)
    ensures IsDiagonal(d) <==> v.0 != 0 && v.1 != 0
  {
    match d
    case Left => (-1, 0)
    case UpperLeft => (-1, -1)
    case Up => (0, -1)
    case UpperRight => (1, -1)
    case Right => (1, 0)
    case LowerRight => (1, 1)
    case Down => (0, 1)
    case LowerLeft => (-1, 1)
  }

  /** `c * v` for a compass component `c` in -1..1, written without a product. */
  function Signed(c: int, v: real): real {
    if c < 0 then -v else if c > 0 then v else 0.0
  }

  /**
   The displacement of a step towards `d` whose cardinal length is `ux` along
   x and `uy` along y: the compass vector, each axis scaled by
   `1 / sqrt(2) = sqrt(2) / 2` when the direction is diagonal.
   */
  function Offset(d: Direction, ux: real, uy: real): (Surd, Surd) {
    var (cx, cy) := Compass(d);
    if IsDiagonal(d) then (Surd(0.0, Signed(cx, ux / 2.0)), Surd(0.0, Signed(cy, uy / 2.0)))
    else (Surd(Signed(cx, ux), 0.0), Surd(Signed(cy, uy), 0.0))
  }

  /**
   The end point is the start moved by the compass displacement for one step
   of `scale * 2^level`. In particular a cardinal step keeps one coordinate:
   Left and Right keep y, Up and Down keep x.
   */
  lemma {:induction false} EndPointByCompass(start: Point, d: Direction, level: nat)
    ensures var off := Offset(d, X_SCALE * Pow2(level), Y_SCALE * Pow2(level));
            EndPoint(start, d, level) == Point(Add(start.x, off.0), Add(start.y, off.1))
    ensures (d.Left? || d.Right?) ==> EndPoint(start, d, level).y == start.y
    ensures (d.Up? || d.Down?) ==> EndPoint(start, d, level).x == start.x
    ensures d.Up? ==> EndPoint(start, d, level).y.rational < start.y.rational &&
                      EndPoint(start, d, level).y.root2 == start.y.root2
  {
  }

  /** The squared Euclidean length of the vector (dx, dy). */
  function SquaredLength(dx: Surd, dy: Surd): Surd {
    Add(Mul(dx, dx), Mul(dy, dy))
  }

  /** A cardinal displacement, `(±u, 0)` or `(0, ±u)`, has squared length `u^2`. */
  lemma {:induction false} CardinalLength(v: real, w: real, u: real)
    requires (v == 0.0 && (w == u || w == -u)) || (w == 0.0 && (v == u || v == -u))
    ensures SquaredLength(Surd(v, 0.0), Surd(w, 0.0)) == Surd(u * u, 0.0)
  {
    if v == 0.0 {
      MulOf(Surd(v, 0.0), Surd(v, 0.0), 0.0, 0.0, 0.0, 0.0);
      MulOf(Surd(w, 0.0), Surd(w, 0.0), w, 0.0, w, 0.0);
      SquareOfEither(w, u);
    } else {
      MulOf(Surd(v, 0.0), Surd(v, 0.0), v, 0.0, v, 0.0);
      MulOf(Surd(w, 0.0), Surd(w, 0.0), 0.0, 0.0, 0.0, 0.0);
      SquareOfEither(v, u);
    }
  }

  /** A diagonal displacement, `(±h sqrt(2), ±h sqrt(2))` with `h = u / 2`, has squared length `u^2`. */
  lemma {:induction false} DiagonalLength(a: real, b: real, u: real)
    requires a == u / 2.0 || a == -(u / 2.0)
    requires b == u / 2.0 || b == -(u / 2.0)
    ensures SquaredLength(Surd(0.0, a), Surd(0.0, b)) == Surd(u * u, 0.0)
  {
    MulOf(Surd(0.0, a), Surd(0.0, a), 0.0, a, 0.0, a);
    MulOf(Surd(0.0, b), Surd(0.0, b), 0.0, b, 0.0, b);
    SquareOfEither(a, u / 2.0);
    SquareOfEither(b, u / 2.0);
    HalvesSquared(u);
  }

  lemma {:induction false} SquareOfEither(v: real, u: real)
    requires v == u || v == -u
    ensures v * v == u * u
  {
  }

  lemma {:induction false} HalvesSquared(u: real)
    ensures 2.0 * ((u / 2.0) * (u / 2.0)) + 2.0 * ((u / 2.0) * (u / 2.0)) == u * u
  {
  }

  /**
   A step of cardinal length `u` has squared Euclidean length `u^2` whatever
   its direction: the diagonal directions are exactly as long as the cardinal ones.
   */
  lemma {:induction false} OffsetLength(d: Direction, u: real)
    ensures SquaredLength(Offset(d, u, u).0, Offset(d, u, u).1) == Surd(u * u, 0.0)
  {
    var (cx, cy) := Compass(d);
    var (dx, dy) := Offset(d, u, u);
    if IsDiagonal(d) {
      assert dx == Surd(0.0, dx.root2) && dy == Surd(0.0, dy.root2);
      DiagonalLength(dx.root2, dy.root2, u);
    } else {
      assert dx == Surd(dx.rational, 0.0) && dy == Surd(dy.rational, 0.0);
      CardinalLength(dx.rational, dy.rational, u);
    }
  }

  /** The length of a segment grown at `level`: `scale * 2^level`, the same on both axes. */
  function StepLength(level: nat): (u: real)
    ensures u == X_SCALE * Pow2(level) == Y_SCALE * Pow2(level)
  {
    X_SCALE * Pow2(level)
  }

  /**
   The displacement from a segment's start to its end point is the compass
   offset of its direction scaled by the step length of its level.
   */
  lemma {:induction false} DisplacementIsOffset(start: Point, d: Direction, level: nat)
    ensures var e := EndPoint(start, d, level);
            (Sub(e.x, start.x), Sub(e.y, start.y)) == Offset(d, StepLength(level), StepLength(level))
  {
    var u := StepLength(level);
    var off := Offset(d, u, u);
    EndPointByCompass(start, d, level);
    SubAdd(start.x, off.0);
    SubAdd(start.y, off.1);
  }

  lemma {:induction false} SubAdd(a: Surd, b: Surd)
    ensures Sub(Add(a, b), a) == b
  {
  }

  /**
   Every segment grown at `level`, cardinal or diagonal, from any start, has
   squared length `(scale * 2^level)^2`: its length depends on its level only.
   */
  lemma {:induction false} SegmentLength(start: Point, d: Direction, level: nat)
    ensures var e := EndPoint(start, d, level);
            SquaredLength(Sub(e.x, start.x), Sub(e.y, start.y)) == Surd(StepLength(level) * StepLength(level), 0.0)
  {
    DisplacementIsOffset(start, d, level);
    OffsetLength(d, StepLength(level));
  }

  datatype Color = Color(r: real, g: real, b: real)

  const GREEN := Color(0.0, 1.0, 0.0)
  const BROWN := Color(0.25, 0.25, 0.0)

  /** Leaves (level 0) are green, every other segment brown. */
  function SegmentColor(level: nat): (c: Color)
    ensures c == GREEN <==> level == 0
    ensures c == BROWN <==> level > 0
  {
    if level == 0 then GREEN else BROWN
  }

  /** A vertex: a position (x, y, 0) and a colour. */
  datatype Position = Position(x: Surd, y: Surd, z: Surd)

  datatype Vertex = Vertex(position: Position, color: Color)

  /** The position of a point in the plane z = 0. */
  function At(p: Point): Position {
    Position(p.x, p.y, ZERO)
  }
}
