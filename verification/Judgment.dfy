/** The integer geometry of src/danmaku/judgment.cpp against the exact one over the reals. */
module Judgment {
  datatype Point = Point(x: int, y: int)

  const INT32_MIN: int := -0x8000_0000
  const INT32_MAX: int := 0x7FFF_FFFF

  /** Division as C++ does it, toward zero. */
  function Quot(n: int, d: int): int
    requires d > 0
  {
    if n >= 0 then n / d else -((-n) / d)
  }

  function Square(v: int): int {
    v * v
  }

  function Clamp32(v: int): int {
    if v < INT32_MIN then INT32_MIN else if v > INT32_MAX then INT32_MAX else v
  }

  function DistanceSquared(a: Point, b: Point): int {
    Square(a.x - b.x) + Square(a.y - b.y)
  }

  function Dot(p: Point, a: Point, b: Point): int {
    (p.x - a.x) * (b.x - a.x) + (p.y - a.y) * (b.y - a.y)
  }

  /** The nearest point of the segment as the program finds it, each coordinate cut to a whole milli. */
  function Nearest(p: Point, a: Point, b: Point): Point {
    var len2, dot := DistanceSquared(b, a), Dot(p, a, b);
    if len2 <= 0 || dot <= 0 then a
    else if dot >= len2 then b
    else Point(a.x + Quot((b.x - a.x) * dot, len2), a.y + Quot((b.y - a.y) * dot, len2))
  }

  method PointSegmentDistanceSquaredMilli(p: Point, a: Point, b: Point) returns (d2: int)
    ensures d2 == DistanceSquared(p, Nearest(p, a, b))
  {
    var abx, aby := b.x - a.x, b.y - a.y;
    var apx, apy := p.x - a.x, p.y - a.y;
    var len2 := Square(abx) + Square(aby);
    if len2 == 0 {
      return Square(apx) + Square(apy);
    }
    var dot := apx * abx + apy * aby;
    if dot <= 0 {
      return Square(apx) + Square(apy);
    }
    if dot >= len2 {
      return Square(p.x - b.x) + Square(p.y - b.y);
    }
    var cx, cy := a.x + Quot(abx * dot, len2), a.y + Quot(aby * dot, len2);
    d2 := Square(p.x - cx) + Square(p.y - cy);
  }

  // ---- The exact distance ----

  datatype Spot = Spot(x: real, y: real)

  function Exactly(p: Point): Spot {
    Spot(p.x as real, p.y as real)
  }

  /** The point a share `t` of the way from `a` to `b`. */
  function Along(a: Point, b: Point, t: real): Spot {
    Spot(a.x as real + t * (b.x - a.x) as real, a.y as real + t * (b.y - a.y) as real)
  }

  function SpotDistance2(u: Spot, v: Spot): real {
    (u.x - v.x) * (u.x - v.x) + (u.y - v.y) * (u.y - v.y)
  }

  function Share(p: Point, a: Point, b: Point): real {
    var len2, dot := DistanceSquared(b, a), Dot(p, a, b);
    if len2 <= 0 || dot <= 0 then 0.0 else if dot >= len2 then 1.0 else dot as real / len2 as real
  }

  /** The square of the distance from `p` to the segment. */
  function Exact2(p: Point, a: Point, b: Point): real {
    SpotDistance2(Exactly(p), Along(a, b, Share(p, a, b)))
  }

  // ---- It is the least distance to any point of the segment ----

  lemma Expand(x: real, u: real, t: real)
    ensures (x - t * u) * (x - t * u) == x * x - 2.0 * t * (x * u) + t * t * (u * u)
  {
    assert (t * u) * (t * u) == t * t * (u * u);
    assert x * (t * u) == t * (x * u);
  }

  /** How far a point a share `t` along is, from three numbers. */
  function Parabola(ap2: real, dot: real, len2: real, t: real): real {
    ap2 - 2.0 * t * dot + t * t * len2
  }

  lemma AlongIsParabola(p: Point, a: Point, b: Point, t: real)
    ensures SpotDistance2(Exactly(p), Along(a, b, t))
      == Parabola(DistanceSquared(p, a) as real, Dot(p, a, b) as real, DistanceSquared(b, a) as real, t)
  {
    hide *;
    CastParts(p, a, b);
    RealParabola((p.x - a.x) as real, (p.y - a.y) as real, (b.x - a.x) as real, (b.y - a.y) as real, t);
    AlongApart(p, a, b, t);
  }

  lemma CastParts(p: Point, a: Point, b: Point)
    ensures var x, y, u, v := (p.x - a.x) as real, (p.y - a.y) as real, (b.x - a.x) as real, (b.y - a.y) as real;
      && DistanceSquared(p, a) as real == x * x + y * y && Dot(p, a, b) as real == x * u + y * v
      && DistanceSquared(b, a) as real == u * u + v * v
  {
    Casts(p.x - a.x, p.y - a.y, b.x - a.x, b.y - a.y);
    IntegerParts(p, a, b);
    hide DistanceSquared, Dot;
  }

  lemma IntegerParts(p: Point, a: Point, b: Point)
    ensures var x, y, u, v := p.x - a.x, p.y - a.y, b.x - a.x, b.y - a.y;
      DistanceSquared(p, a) == x * x + y * y && Dot(p, a, b) == x * u + y * v && DistanceSquared(b, a) == u * u + v * v
  {
  }

  lemma AlongApart(p: Point, a: Point, b: Point, t: real)
    ensures var x, y, u, v := (p.x - a.x) as real, (p.y - a.y) as real, (b.x - a.x) as real, (b.y - a.y) as real;
      SpotDistance2(Exactly(p), Along(a, b, t)) == (x - t * u) * (x - t * u) + (y - t * v) * (y - t * v)
  {
    var c := Along(a, b, t);
    var u, v := (b.x - a.x) as real, (b.y - a.y) as real;
    assert p.x as real - c.x == (p.x - a.x) as real - t * u;
    assert p.y as real - c.y == (p.y - a.y) as real - t * v;
  }

  lemma RealParabola(x: real, y: real, u: real, v: real, t: real)
    ensures (x - t * u) * (x - t * u) + (y - t * v) * (y - t * v) == Parabola(x * x + y * y, x * u + y * v, u * u + v * v, t)
  {
    Expand(x, u, t);
    Expand(y, v, t);
    Collect(x * x, x * u, u * u, y * y, y * v, v * v, t);
    hide Parabola;
  }

  lemma Collect(xx: real, xu: real, uu: real, yy: real, yv: real, vv: real, t: real)
    ensures (xx - 2.0 * t * xu + t * t * uu) + (yy - 2.0 * t * yv + t * t * vv) == Parabola(xx + yy, xu + yv, uu + vv, t)
  {
    assert t * (xu + yv) == t * xu + t * yv;
    assert (t * t) * (uu + vv) == (t * t) * uu + (t * t) * vv;
  }

  lemma Casts(x: int, y: int, u: int, v: int)
    ensures (x * x + y * y) as real == x as real * x as real + y as real * y as real
    ensures (x * u + y * v) as real == x as real * u as real + y as real * v as real
    ensures (u * u + v * v) as real == u as real * u as real + v as real * v as real
  {
    CastProduct(x, x);
    CastProduct(y, y);
    CastProduct(x, u);
    CastProduct(y, v);
    CastProduct(u, u);
    CastProduct(v, v);
  }

  lemma CastProduct(x: int, y: int)
    ensures (x * y) as real == x as real * y as real
  {
  }

  lemma ParabolaDifference(c: real, dot: real, len2: real, s: real, t: real)
    ensures Parabola(c, dot, len2, t) - Parabola(c, dot, len2, s) == (t - s) * (len2 * (t + s) - 2.0 * dot)
  {
    assert (t - s) * (len2 * (t + s)) == len2 * ((t - s) * (t + s));
    assert (t - s) * (t + s) == t * t - s * s;
    assert (t - s) * (2.0 * dot) == 2.0 * t * dot - 2.0 * s * dot;
  }

  lemma ProductSign(x: real, y: real)
    ensures x >= 0.0 && y >= 0.0 ==> x * y >= 0.0
    ensures x <= 0.0 && y <= 0.0 ==> x * y >= 0.0
  {
  }

  lemma LeastParabola(c: real, dot: real, len2: real, t: real)
    requires 0.0 <= t <= 1.0 && len2 >= 0.0 && (len2 == 0.0 ==> dot == 0.0)
    ensures var s := if len2 <= 0.0 || dot <= 0.0 then 0.0 else if dot >= len2 then 1.0 else dot / len2;
      Parabola(c, dot, len2, s) <= Parabola(c, dot, len2, t)
  {
    var s := if len2 <= 0.0 || dot <= 0.0 then 0.0 else if dot >= len2 then 1.0 else dot / len2;
    ParabolaDifference(c, dot, len2, s, t);
    ProductSign(len2, t);
    if len2 <= 0.0 || dot <= 0.0 {
      ProductSign(t - s, len2 * (t + s) - 2.0 * dot);
    } else if dot >= len2 {
      ProductSign(len2, 1.0 - t);
      assert len2 * (t + s) == 2.0 * len2 - len2 * (1.0 - t);
      ProductSign(t - s, len2 * (t + s) - 2.0 * dot);
    } else {
      assert len2 * s == dot;
      assert len2 * (t + s) - 2.0 * dot == len2 * (t - s);
      ProductSign(t - s, t - s);
      ProductSign(len2, (t - s) * (t - s));
      assert (t - s) * (len2 * (t - s)) == len2 * ((t - s) * (t - s));
    }
  }

  lemma FlatSegment(p: Point, a: Point, b: Point)
    ensures DistanceSquared(b, a) >= 0 && DistanceSquared(p, a) >= 0
    ensures DistanceSquared(b, a) == 0 ==> Dot(p, a, b) == 0
  {
    SquareSign(b.x - a.x);
    SquareSign(b.y - a.y);
    SquareSign(p.x - a.x);
    SquareSign(p.y - a.y);
  }

  lemma SquareSign(v: int)
    ensures Square(v) >= 0 && (Square(v) == 0 ==> v == 0)
  {
  }

  /** The reference: no point of the segment is nearer than the exact distance, and one is that near. */
  lemma ExactIsLeast(p: Point, a: Point, b: Point, t: real)
    requires 0.0 <= t <= 1.0
    ensures Exact2(p, a, b) <= SpotDistance2(Exactly(p), Along(a, b, t)) && 0.0 <= Share(p, a, b) <= 1.0
  {
    FlatSegment(p, a, b);
    AlongIsParabola(p, a, b, t);
    AlongIsParabola(p, a, b, Share(p, a, b));
    LeastParabola(DistanceSquared(p, a) as real, Dot(p, a, b) as real, DistanceSquared(b, a) as real, t);
    ShareBound(Dot(p, a, b), DistanceSquared(b, a));
    hide DistanceSquared, Dot, Along, SpotDistance2, Parabola;
  }

  lemma ShareBound(dot: int, len2: int)
    ensures 0 < dot < len2 ==> 0.0 <= dot as real / len2 as real <= 1.0
  {
  }

  // ---- The cut costs less than one milli a coordinate ----

  lemma QuotError(n: int, d: int)
    requires d > 0
    ensures -d < n - Quot(n, d) * d < d
  {
  }

  lemma QuotRealError(n: int, d: int)
    requires d > 0
    ensures -1.0 < n as real / d as real - Quot(n, d) as real < 1.0
  {
    QuotError(n, d);
    var q := Quot(n, d);
    var r := n - q * d;
    CastProduct(q, d);
    assert n as real == q as real * d as real + r as real;
    assert n as real / d as real == q as real + r as real / d as real;
    RealBelow(r, d);
    RealBelow(-r, d);
  }

  lemma RealBelow(r: int, d: int)
    requires d > 0 && r < d
    ensures r as real / d as real < 1.0
  {
  }

  /** The point found and the exact one are less than a milli apart in each coordinate. */
  lemma NearestIsClose(p: Point, a: Point, b: Point)
    ensures Close(Along(a, b, Share(p, a, b)), Exactly(Nearest(p, a, b)))
  {
    var len2, dot := DistanceSquared(b, a), Dot(p, a, b);
    hide DistanceSquared, Dot, Quot;
    if len2 > 0 && 0 < dot < len2 {
      CutCoordinate(a.x, b.x - a.x, dot, len2);
      CutCoordinate(a.y, b.y - a.y, dot, len2);
    }
  }

  lemma CutCoordinate(start: int, span: int, dot: int, len2: int)
    requires len2 > 0
    ensures var exact := start as real + dot as real / len2 as real * span as real;
      -1.0 < (start + Quot(span * dot, len2)) as real - exact < 1.0
  {
    var q := Quot(span * dot, len2);
    QuotRealError(span * dot, len2);
    CastProduct(span, dot);
    Regroup(dot as real, len2 as real, span as real);
    var share := dot as real / len2 as real * span as real;
    assert share == (span * dot) as real / len2 as real;
    Shifted(start, q, share);
  }

  lemma Shifted(start: int, q: int, share: real)
    requires -1.0 < share - q as real < 1.0
    ensures -1.0 < (start + q) as real - (start as real + share) < 1.0
  {
  }

  lemma Regroup(x: real, d: real, u: real)
    requires d > 0.0
    ensures x / d * u == u * x / d
  {
    var q := x / d;
    assert q * d == x;
    assert (q * u) * d == u * x;
  }

  lemma CauchySchwarz(ux: real, uy: real, vx: real, vy: real)
    ensures (ux * vx + uy * vy) * (ux * vx + uy * vy) <= (ux * ux + uy * uy) * (vx * vx + vy * vy)
  {
    Lagrange(ux, uy, vx, vy);
    RealSquareSign(ux * vy - uy * vx);
  }

  lemma Lagrange(ux: real, uy: real, vx: real, vy: real)
    ensures (ux * ux + uy * uy) * (vx * vx + vy * vy)
      == (ux * vx + uy * vy) * (ux * vx + uy * vy) + (ux * vy - uy * vx) * (ux * vy - uy * vx)
  {
    Binomial(ux * vx, uy * vy);
    Binomial(ux * vy, -(uy * vx));
    assert (ux * vx) * (uy * vy) == (ux * vy) * (uy * vx);
    assert (ux * vx) * (ux * vx) == (ux * ux) * (vx * vx);
    assert (uy * vy) * (uy * vy) == (uy * uy) * (vy * vy);
    assert (ux * vy) * (ux * vy) == (ux * ux) * (vy * vy);
    assert (uy * vx) * (uy * vx) == (uy * uy) * (vx * vx);
    Multiply(ux * ux, uy * uy, vx * vx, vy * vy);
  }

  lemma Multiply(a: real, b: real, c: real, d: real)
    ensures (a + b) * (c + d) == a * c + a * d + b * c + b * d
  {
  }

  lemma Binomial(x: real, y: real)
    ensures (x + y) * (x + y) == x * x + 2.0 * (x * y) + y * y
  {
  }

  lemma RealSquareSign(x: real)
    ensures x * x >= 0.0
  {
  }

  lemma PositiveProduct(x: real, y: real)
    requires x > 0.0 && y > 0.0
    ensures x * y > 0.0
  {
  }

  lemma SquaresCompare(x: real, y: real)
    requires y >= 0.0
    ensures x > y ==> x * x > y * y
  {
    if x > y {
      PositiveProduct(x - y, x + y);
      assert (x - y) * (x + y) == x * x - y * y;
    }
  }

  lemma Below(a: real, b: real, x: real, y: real)
    requires 0.0 <= a <= x && 0.0 <= b <= y
    ensures a * b <= x * y
  {
    assert a * b <= x * b <= x * y;
  }

  /** Moving by at most two moves a distance by at most two. */
  lemma Widen(ux: real, uy: real, ex: real, ey: real, k: real)
    requires k >= 0.0 && ux * ux + uy * uy <= k * k && ex * ex + ey * ey <= 4.0
    ensures (ux + ex) * (ux + ex) + (uy + ey) * (uy + ey) <= (k + 2.0) * (k + 2.0)
  {
    var cross := ux * ex + uy * ey;
    RealSquareSign(ux);
    RealSquareSign(uy);
    RealSquareSign(ex);
    RealSquareSign(ey);
    CauchySchwarz(ux, uy, ex, ey);
    Below(ux * ux + uy * uy, ex * ex + ey * ey, k * k, 4.0);
    assert (2.0 * k) * (2.0 * k) == k * k * 4.0;
    SquaresCompare(cross, 2.0 * k);
    Binomial(ux, ex);
    Binomial(uy, ey);
    Binomial(k, 2.0);
  }

  ghost predicate Close(c: Spot, e: Spot) {
    -1.0 < e.x - c.x < 1.0 && -1.0 < e.y - c.y < 1.0
  }

  lemma CloseSpots(c: Spot, e: Spot)
    requires Close(c, e)
    ensures (c.x - e.x) * (c.x - e.x) + (c.y - e.y) * (c.y - e.y) < 2.0
  {
    SmallStep(c.x - e.x, c.y - e.y);
  }

  lemma WidenSpots(u: Spot, c: Spot, e: Spot, k: real, m: real)
    requires k >= 0.0 && m == k + 2.0 && Close(c, e) && SpotDistance2(u, c) <= k * k
    ensures SpotDistance2(u, e) <= m * m
  {
    var ux, uy, ex, ey := u.x - c.x, u.y - c.y, c.x - e.x, c.y - e.y;
    CloseSpots(c, e);
    Widen(ux, uy, ex, ey, k);
    assert ux + ex == u.x - e.x && uy + ey == u.y - e.y;
  }

  lemma SmallStep(x: real, y: real)
    requires -1.0 < x < 1.0 && -1.0 < y < 1.0
    ensures x * x + y * y < 2.0
  {
    SmallSquare(x);
    SmallSquare(y);
  }

  lemma SmallSquare(x: real)
    requires -1.0 < x < 1.0
    ensures x * x < 1.0
  {
    Expand(1.0, x, 1.0);
    if x >= 0.0 {
      assert x * x <= x * 1.0;
    } else {
      assert (-x) * (-x) <= (-x) * 1.0;
    }
  }

  lemma DistanceIsReal(p: Point, c: Point)
    ensures DistanceSquared(p, c) as real == SpotDistance2(Exactly(p), Exactly(c))
  {
    Casts(p.x - c.x, p.y - c.y, 0, 0);
  }

  /** Every point within r - 2 of the segment is hit, and none beyond r + 2. */
  lemma HitWithinTwo(p: Point, a: Point, b: Point, r: int)
    requires r >= 0
    ensures var d2 := DistanceSquared(p, Nearest(p, a, b));
      && (r >= 2 && Exact2(p, a, b) <= (r - 2) as real * (r - 2) as real ==> d2 <= r * r)
      && (d2 <= r * r ==> Exact2(p, a, b) <= (r + 2) as real * (r + 2) as real)
  {
    var n := Nearest(p, a, b);
    var c, e, u := Along(a, b, Share(p, a, b)), Exactly(n), Exactly(p);
    NearestIsClose(p, a, b);
    DistanceIsReal(p, n);
    CastProduct(r, r);
    hide Nearest, Along, Share, DistanceSquared, Exactly, SpotDistance2;
    if r >= 2 && Exact2(p, a, b) <= (r - 2) as real * (r - 2) as real {
      WidenSpots(u, c, e, (r - 2) as real, r as real);
    }
    if DistanceSquared(p, n) <= r * r {
      CloseBack(c, e);
      WidenSpots(u, e, c, r as real, (r + 2) as real);
    }
  }

  lemma CloseBack(c: Spot, e: Spot)
    requires Close(c, e)
    ensures Close(e, c)
  {
  }

  /** The distance found and the exact one differ by less than the square root of two. */
  lemma DistanceWithinRootTwo(p: Point, a: Point, b: Point, d: real, e: real)
    requires d >= 0.0 && e >= 0.0 && d * d == Exact2(p, a, b) && e * e == DistanceSquared(p, Nearest(p, a, b)) as real
    ensures (d - e) * (d - e) < 2.0
  {
    var n := Nearest(p, a, b);
    var c, f, u := Along(a, b, Share(p, a, b)), Exactly(n), Exactly(p);
    NearestIsClose(p, a, b);
    DistanceIsReal(p, n);
    hide Nearest, Along, Share, DistanceSquared, Exactly, SpotDistance2;
    CloseDistances(u, c, f, d, e);
  }

  lemma CloseDistances(u: Spot, c: Spot, f: Spot, d: real, e: real)
    requires d >= 0.0 && e >= 0.0 && Close(c, f) && d * d == SpotDistance2(u, c) && e * e == SpotDistance2(u, f)
    ensures (d - e) * (d - e) < 2.0
  {
    CloseSpots(c, f);
    ReverseTriangle(u.x - c.x, u.y - c.y, u.x - f.x, u.y - f.y, c.x - f.x, c.y - f.y, d, e);
  }

  /** `w` is `v - u`: the distances differ by no more than its length. */
  lemma ReverseTriangle(ux: real, uy: real, vx: real, vy: real, wx: real, wy: real, d: real, e: real)
    requires d >= 0.0 && e >= 0.0 && d * d == ux * ux + uy * uy && e * e == vx * vx + vy * vy
    requires wx == vx - ux && wy == vy - uy
    ensures (d - e) * (d - e) <= wx * wx + wy * wy
  {
    CauchySchwarz(ux, uy, vx, vy);
    assert (d * e) * (d * e) == (d * d) * (e * e);
    ProductSign(d, e);
    SquaresCompare(ux * vx + uy * vy, d * e);
    Binomial(d, -e);
    Binomial(vx, -ux);
    Binomial(vy, -uy);
  }

  // ---- The capsule ----

  function Tip(start: Point, dirX: int, dirY: int, length: int): Point {
    Point(Clamp32(start.x + Quot(dirX * length, 1000)), Clamp32(start.y + Quot(dirY * length, 1000)))
  }

  /** PointInCapsule: a negative radius hits nothing, and otherwise the hit is right but for two milli. */
  method PointInCapsule(p: Point, start: Point, dirX: int, dirY: int, length: int, radius: int) returns (hit: bool)
    ensures radius < 0 ==> !hit
    ensures var tip := Tip(start, dirX, dirY, length);
      && (radius >= 2 && Exact2(p, start, tip) <= (radius - 2) as real * (radius - 2) as real ==> hit)
      && (hit ==> Exact2(p, start, tip) <= (radius + 2) as real * (radius + 2) as real)
  {
    if radius < 0 {
      return false;
    }
    var tip := Point(Clamp32(start.x + Quot(dirX * length, 1000)), Clamp32(start.y + Quot(dirY * length, 1000)));
    var d2 := PointSegmentDistanceSquaredMilli(p, start, tip);
    hit := d2 <= Square(radius);
    HitWithinTwo(p, start, tip, radius);
    hide Exact2, Nearest, DistanceSquared, Quot;
  }
}
