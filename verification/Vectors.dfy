/** Vector addition of the server's physics (object.c, `vectbl` and `addVector`).

    The C code works in doubles. Here the square root is its integer part, and the table
    entry is the nearest whole number to 7*|dy|/hyp, found by comparing squares. */
module Vectors {
  import opened CtfServ

  const VECTBL: seq<(int, int)> := [
    (0, -16), (6, -15), (11, -11), (15, -6), (16, 0), (15, 6), (11, 11), (6, 15),
    (0, 16), (-6, 15), (-11, 11), (-15, 6), (-16, 0), (-15, -6), (-11, -11), (-6, -15)]

  const ACOSTBL: seq<nat> := [4, 4, 3, 3, 2, 2, 1, 0]
  const ACOSTBL2: seq<nat> := [0, 1, 2, 2, 3, 3, 4, 4]

  /** Displacement of one frame; `>> 4` rounds towards minus infinity. */
  function Dx(v: Vec): int { VECTBL[v.dir].0 * v.vel / 16 }

  function Dy(v: Vec): int { VECTBL[v.dir].1 * v.vel / 16 }

  function Abs(x: int): nat { if x < 0 then -x else x }

  /** The integer part of the square root. */
  function Isqrt(n: nat): (r: nat)
    ensures r * r <= n < (r + 1) * (r + 1)
  {
    if n == 0 then 0 else
      var r := Isqrt(n - 1);
      if (r + 1) * (r + 1) <= n then r + 1 else r
  }

  /** The nearest whole number to 7*|dy|/sqrt(n), at most `t`. */
  function Nearest(dy: int, n: nat, t: nat): (r: nat)
    requires 196 * (dy * dy) < (2 * t + 1) * (2 * t + 1) * n
    ensures r <= t
    ensures 196 * (dy * dy) < (2 * r + 1) * (2 * r + 1) * n
    ensures r > 0 ==> (2 * r - 1) * (2 * r - 1) * n <= 196 * (dy * dy)
  {
    if t == 0 || (2 * t - 1) * (2 * t - 1) * n <= 196 * (dy * dy) then t else Nearest(dy, n, t - 1)
  }

  /** The row of the arc-cosine tables: at most 7, because |dy| is at most the hypotenuse. */
  function TableEntry(dx: int, dy: int): (r: nat)
    requires dx != 0 || dy != 0
    ensures r <= 7
  {
    var n := dx * dx + dy * dy;
    assert n > 0 by { Squares(dx, dy); }
    assert dy * dy <= n by { Squares(dx, dy); }
    Nearest(dy, n, 7)
  }

  function Heading(dx: int, dy: int): Dir
    requires dx != 0 || dy != 0
  {
    var t := TableEntry(dx, dy);
    if dx >= 0 && dy <= 0 then ACOSTBL[t]
    else if dx >= 0 && dy >= 0 then ACOSTBL2[t] + 3
    else if dx <= 0 && dy >= 0 then ACOSTBL[t] + 7
    else ACOSTBL2[t] + 11
  }

  function AddVector(v1: Vec, v2: Vec): Vec {
    if v1.vel == 0 then v2
    else if v2.vel == 0 then v1
    else
      var dx, dy := Dx(v1) + Dx(v2), Dy(v1) + Dy(v2);
      if dx == 0 && dy == 0 then Vec(0, 0)
      else
        Squares(dx, dy);
        Vec(Heading(dx, dy), Isqrt(dx * dx + dy * dy))
  }

  function Reverse(d: Dir): Dir { (d + 8) % 16 }

  lemma Squares(dx: int, dy: int)
    ensures dx * dx >= 0 && dy * dy >= 0
    ensures dx != 0 || dy != 0 ==> dx * dx + dy * dy > 0
  {
    if dx != 0 { assert dx * dx > 0; }
    if dy != 0 { assert dy * dy > 0; }
  }

  lemma SquareMonotone(a: nat, b: nat)
    ensures a <= b <==> a * a <= b * b
  {
    if a <= b { assert b * b - a * a == (b - a) * (b + a) >= 0; }
    else { assert a * a - b * b == (a - b) * (a + b) > 0; }
  }

  /** One step is at most two units longer than its speed, whatever its direction: the
      table's rows are up to 1% too long and each coordinate is rounded down. */
  lemma StepLength(v: Vec)
    requires 0 <= v.vel <= 40
    ensures Dx(v) * Dx(v) + Dy(v) * Dy(v) <= (v.vel + 2) * (v.vel + 2)
  {
    var p, q := VECTBL[v.dir].0, VECTBL[v.dir].1;
    ScaledStep(Dx(v), Abs(p) * v.vel + 15) by { RoundedDown(p, v.vel); }
    ScaledStep(Dy(v), Abs(q) * v.vel + 15) by { RoundedDown(q, v.vel); }
    RowLength(v.dir);
    ScaledSquare(Abs(p), Abs(q), v.vel);
  }

  lemma ScaledStep(x: int, bound: nat)
    requires 16 * Abs(x) <= bound
    ensures 256 * (x * x) <= bound * bound
  {
    SquareMonotone(16 * Abs(x), bound);
    assert (16 * Abs(x)) * (16 * Abs(x)) == 256 * (x * x);
  }

  lemma RowLength(d: Dir)
    ensures Abs(VECTBL[d].0) + Abs(VECTBL[d].1) <= 22
    ensures Abs(VECTBL[d].0) * Abs(VECTBL[d].0) + Abs(VECTBL[d].1) * Abs(VECTBL[d].1) <= 261
  {
  }

  lemma RoundedDown(p: int, u: nat)
    ensures 16 * Abs(p * u / 16) <= Abs(p) * u + 15
  {
    AbsProduct(p, u);
    FloorBound(p * u);
  }

  lemma ScaledSquare(p: nat, q: nat, u: nat)
    requires p + q <= 22 && p * p + q * q <= 261 && u <= 40
    ensures (p * u + 15) * (p * u + 15) + (q * u + 15) * (q * u + 15) <= 256 * ((u + 2) * (u + 2))
  {
    var uu, pu, qu := u * u, p * u, q * u;
    var w, z := (p * p) * uu, (q * q) * uu;
    assert (pu + 15) * (pu + 15) == w + 30 * pu + 225 by { SquareOfSum(p, u); }
    assert (qu + 15) * (qu + 15) == z + 30 * qu + 225 by { SquareOfSum(q, u); }
    assert (u + 2) * (u + 2) == uu + 4 * u + 4;
    assert w + z <= 261 * uu by { Distribute(p * p, q * q, uu); MulLe(p * p + q * q, 261, uu); }
    assert pu + qu <= 22 * u by { Distribute(p, q, u); MulLe(p + q, 22, u); }
    assert uu <= 40 * u by { MulLe(u, 40, u); }
  }

  lemma Distribute(a: int, b: int, c: int)
    ensures (a + b) * c == a * c + b * c
  {
  }

  lemma SquareOfSum(p: nat, u: nat)
    ensures (p * u + 15) * (p * u + 15) == (p * p) * (u * u) + 30 * (p * u) + 225
  {
    Regroup(p, u);
  }

  lemma MulLe(a: nat, b: nat, c: nat)
    requires a <= b
    ensures a * c <= b * c
  {
    assert b * c - a * c == (b - a) * c >= 0;
  }

  lemma FloorBound(n: int)
    ensures 16 * Abs(n / 16) <= Abs(n) + 15
  {
  }

  lemma AbsProduct(p: int, u: nat)
    ensures Abs(p * u) == Abs(p) * u
  {
    if p < 0 { assert p * u == -((-p) * u); assert (-p) * u >= 0; } else { assert p * u >= 0; }
  }

  /** Triangle inequality over whole numbers. */
  lemma Triangle(ax: int, ay: int, cx: int, cy: int, a: nat, b: nat)
    requires ax * ax + ay * ay <= a * a
    requires cx * cx + cy * cy <= b * b
    ensures (ax + cx) * (ax + cx) + (ay + cy) * (ay + cy) <= (a + b) * (a + b)
  {
    var dot := ax * cx + ay * cy;
    var cross := ax * cy - ay * cx;
    var m, n := ax * ax + ay * ay, cx * cx + cy * cy;
    Squares(ax, ay); Squares(cx, cy); Squares(cross, cross);
    assert dot * dot + cross * cross == m * n by { Lagrange(ax, ay, cx, cy); }
    calc {
      dot * dot;
    <=
      m * n;
    <= { MulLe(n, b * b, m); MulLe(m, a * a, b * b); }
      (a * a) * (b * b);
    == { Regroup(a, b); }
      (a * b) * (a * b);
    }
    if dot > a * b { SquareMonotone(dot, a * b); }
  }

  lemma Regroup(a: int, b: int)
    ensures (a * a) * (b * b) == (a * b) * (a * b)
  {
  }

  lemma Lagrange(ax: int, ay: int, cx: int, cy: int)
    ensures (ax * cx + ay * cy) * (ax * cx + ay * cy) + (ax * cy - ay * cx) * (ax * cy - ay * cx)
         == (ax * ax + ay * ay) * (cx * cx + cy * cy)
  {
  }

  lemma RootBound(dx: int, dy: int, m: nat)
    requires dx * dx + dy * dy <= m * m
    ensures dx * dx + dy * dy >= 0 && Isqrt(dx * dx + dy * dy) <= m
  {
    Squares(dx, dy);
    SquareMonotone(Isqrt(dx * dx + dy * dy), m);
  }

  lemma SumSpeed(v1: Vec, v2: Vec)
    requires v1.vel != 0 && v2.vel != 0
    ensures var dx, dy := Dx(v1) + Dx(v2), Dy(v1) + Dy(v2);
            dx * dx + dy * dy >= 0 && 0 <= AddVector(v1, v2).vel <= Isqrt(dx * dx + dy * dy)
  {
    hide Dx, Dy, Isqrt, Heading;
    Squares(Dx(v1) + Dx(v2), Dy(v1) + Dy(v2));
  }

  /** The sum of two vectors is never negative when neither input is, is nothing but the
      other vector when one is at rest, and is at most four units faster than both together. */
  lemma AddVectorSpeed(v1: Vec, v2: Vec)
    requires 0 <= v1.vel && 0 <= v2.vel
    ensures AddVector(v1, v2).vel >= 0
    ensures v1.vel <= 40 && v2.vel <= 40 ==> AddVector(v1, v2).vel <= v1.vel + v2.vel + 4
  {
    hide Dx, Dy, Isqrt, Heading;
    if v1.vel != 0 && v2.vel != 0 {
      hide AddVector;
      SumSpeed(v1, v2);
      if v1.vel <= 40 && v2.vel <= 40 {
        StepLength(v1);
        StepLength(v2);
        Triangle(Dx(v1), Dy(v1), Dx(v2), Dy(v2), v1.vel + 2, v2.vel + 2);
        RootBound(Dx(v1) + Dx(v2), Dy(v1) + Dy(v2), v1.vel + v2.vel + 4);
      }
    }
  }

  /** The heading of a non-zero displacement lies in the quadrant of that displacement:
      0..4 to the north-east, 3..7 south-east, 7..11 south-west and 11..15 north-west. */
  lemma HeadingQuadrant(dx: int, dy: int)
    requires dx != 0 || dy != 0
    ensures dx >= 0 && dy <= 0 ==> Heading(dx, dy) <= 4
    ensures dx >= 0 && dy > 0 ==> 3 <= Heading(dx, dy) <= 7
    ensures dx < 0 && dy >= 0 ==> 7 <= Heading(dx, dy) <= 11
    ensures dx < 0 && dy < 0 ==> 11 <= Heading(dx, dy)
  {
    var t := TableEntry(dx, dy);
  }

  // ---- which way the sum points

  predicate Squared(xx: nat, x: nat) { xx == x * x }

  lemma SlopeLt(p: nat, q: nat, x: nat, y: nat, xx: nat, yy: nat)
    requires Squared(xx, x) && Squared(yy, y) && (p * p) * yy < (q * q) * xx
    ensures p * y < q * x
  {
    Regroup(p, y);
    Regroup(q, x);
    if p * y >= q * x { SquareMonotone(q * x, p * y); }
  }

  lemma SlopeLe(p: nat, q: nat, x: nat, y: nat, xx: nat, yy: nat)
    requires Squared(xx, x) && Squared(yy, y) && (p * p) * yy <= (q * q) * xx
    ensures p * y <= q * x
  {
    Regroup(p, y);
    Regroup(q, x);
    SquareMonotone(p * y, q * x);
  }

  /** How steep a displacement may be for each table entry. */
  predicate Slope(t: nat, x: nat, y: nat) {
    match t
    case 0 => 13 * y <= x
    case 1 => 13 * y < 3 * x && x <= 14 * y
    case 2 => 13 * y < 5 * x && 3 * x <= 14 * y
    case 3 => 12 * y < 7 * x && 5 * x <= 14 * y
    case 4 => 10 * y < 9 * x && 7 * x <= 13 * y
    case 5 => 8 * y < 11 * x && 9 * x <= 11 * y
    case 6 => 5 * y < 13 * x && 11 * x <= 9 * y
    case _ => 5 * x <= 2 * y
  }

  /** The squares of 2t - 1 and 2t + 1. */
  const BELOW: seq<nat> := [0, 1, 9, 25, 49, 81, 121, 169]
  const ABOVE: seq<nat> := [1, 9, 25, 49, 81, 121, 169, 225]

  lemma SlopeOf(t: nat, x: nat, y: nat, xx: nat, yy: nat)
    requires t <= 7 && Squared(xx, x) && Squared(yy, y)
    requires 196 * yy < ABOVE[t] * (xx + yy) && BELOW[t] * (xx + yy) <= 196 * yy
    ensures Slope(t, x, y)
  {
    hide Squared;
    match t
    case 0 => SlopeLe(13, 1, x, y, xx, yy);
    case 1 => SlopeLt(13, 3, x, y, xx, yy); SlopeLe(1, 14, y, x, yy, xx);
    case 2 => SlopeLt(13, 5, x, y, xx, yy); SlopeLe(3, 14, y, x, yy, xx);
    case 3 => SlopeLt(12, 7, x, y, xx, yy); SlopeLe(5, 14, y, x, yy, xx);
    case 4 => SlopeLt(10, 9, x, y, xx, yy); SlopeLe(7, 13, y, x, yy, xx);
    case 5 => SlopeLt(8, 11, x, y, xx, yy); SlopeLe(9, 11, y, x, yy, xx);
    case 6 => SlopeLt(5, 13, x, y, xx, yy); SlopeLe(11, 9, y, x, yy, xx);
    case 7 => SlopeLe(65, 26, y, x, yy, xx);
  }

  lemma EntryRange(dx: int, dy: int)
    requires dx != 0 || dy != 0
    ensures var t, n := TableEntry(dx, dy), dx * dx + dy * dy;
            196 * (dy * dy) < ABOVE[t] * n && BELOW[t] * n <= 196 * (dy * dy)
  {
    Squares(dx, dy);
    var t := TableEntry(dx, dy);
    assert (2 * t + 1) * (2 * t + 1) == ABOVE[t] && (t > 0 ==> (2 * t - 1) * (2 * t - 1) == BELOW[t]);
  }

  lemma EntrySlope(dx: int, dy: int)
    requires dx != 0 || dy != 0
    ensures Slope(TableEntry(dx, dy), Abs(dx), Abs(dy))
  {
    hide Slope, Nearest;
    var n, t := dx * dx + dy * dy, TableEntry(dx, dy);
    Squares(dx, dy);
    EntryRange(dx, dy);
    AbsSquare(dx);
    AbsSquare(dy);
    SlopeOf(t, Abs(dx), Abs(dy), dx * dx, dy * dy);
  }

  lemma AbsSquare(x: int)
    ensures x * x >= 0 && Abs(x) * Abs(x) == x * x
  {
  }

  /** The scalar product of a row of the table with a displacement, and the vector product. */
  function Dot(d: Dir, dx: int, dy: int): int { VECTBL[d].0 * dx + VECTBL[d].1 * dy }

  function Cross(d: Dir, dx: int, dy: int): int { VECTBL[d].0 * dy - VECTBL[d].1 * dx }

  /** The heading is less than an eighth of a turn off the displacement. */
  predicate Along(d: Dir, dx: int, dy: int) { Abs(Cross(d, dx, dy)) < Dot(d, dx, dy) }

  lemma NorthEast(t: nat, x: int, y: int)
    requires t <= 7 && x >= 0 && y >= 0 && Slope(t, x, y) && x + y > 0
    ensures Along(ACOSTBL[t], x, -y)
  {
  }

  lemma SouthEast(t: nat, x: int, y: int)
    requires t <= 7 && x >= 0 && y >= 0 && Slope(t, x, y) && y > 0
    ensures Along(ACOSTBL2[t] + 3, x, y)
  {
  }

  lemma SouthWest(t: nat, x: int, y: int)
    requires t <= 7 && x >= 0 && y >= 0 && Slope(t, x, y) && x > 0
    ensures Along(ACOSTBL[t] + 7, -x, y)
  {
  }

  lemma NorthWest(t: nat, x: int, y: int)
    requires t <= 7 && x >= 0 && y >= 0 && Slope(t, x, y) && x > 0 && y > 0
    ensures Along(ACOSTBL2[t] + 11, -x, -y)
  {
  }

  /** The heading found for a displacement is less than an eighth of a turn off. */
  lemma HeadingAlong(dx: int, dy: int)
    requires dx != 0 || dy != 0
    ensures Along(Heading(dx, dy), dx, dy)
  {
    hide TableEntry, Slope, Along;
    EntrySlope(dx, dy);
    var t := TableEntry(dx, dy);
    if dx >= 0 && dy <= 0 { NorthEast(t, dx, -dy); }
    else if dx >= 0 { SouthEast(t, dx, dy); }
    else if dy >= 0 { SouthWest(t, -dx, dy); }
    else { NorthWest(t, -dx, -dy); }
  }

  /** In which of the headings a displacement's heading is to be found. */
  predicate InQuadrant(d: Dir, dx: int, dy: int) {
    && (dx >= 0 && dy <= 0 ==> d <= 4)
    && (dx >= 0 && dy > 0 ==> 3 <= d <= 7)
    && (dx < 0 && dy >= 0 ==> 7 <= d <= 11)
    && (dx < 0 && dy < 0 ==> 11 <= d)
  }

  /** The sum of two vectors. If one is at rest it is the other; if their displacements cancel out
      it is at rest; and otherwise it points along the sum of the displacements, less than an
      eighth of a turn off and in the same quadrant, and is as fast as that sum is long. */
  lemma AddVectorExact(v1: Vec, v2: Vec)
    ensures v1.vel == 0 ==> AddVector(v1, v2) == v2
    ensures v2.vel == 0 && v1.vel != 0 ==> AddVector(v1, v2) == v1
    ensures var v, dx, dy := AddVector(v1, v2), Dx(v1) + Dx(v2), Dy(v1) + Dy(v2);
            v1.vel != 0 && v2.vel != 0 ==>
              if dx == 0 && dy == 0 then v == Vec(0, 0)
              else
                && InQuadrant(v.dir, dx, dy) && Along(v.dir, dx, dy)
                && 0 <= v.vel && v.vel * v.vel <= dx * dx + dy * dy < (v.vel + 1) * (v.vel + 1)
  {
    hide Heading, Dx, Dy, Along;
    var dx, dy := Dx(v1) + Dx(v2), Dy(v1) + Dy(v2);
    if v1.vel != 0 && v2.vel != 0 && (dx != 0 || dy != 0) {
      Squares(dx, dy);
      HeadingQuadrant(dx, dy);
      HeadingAlong(dx, dy);
    }
  }
}
