/**
 * Collision primitives of the game engine: axis-aligned boxes compared with
 * open intervals, all pairs of two sub-box lists, circles against circles,
 * and circles against boxes by clamping the centre into the box.
 */
module Geometry {

  /** SDL_Rect: top-left corner and size, all in level pixels. */
  datatype Rect = Rect(x: int, y: int, w: int, h: int)

  /** Circle collider; radius 0 means "no circle". */
  datatype Circle = Circle(x: int, y: int, r: int)

  /** checkCollision: the boxes overlap unless one lies entirely on one side of the other. */
  predicate CheckCollision(a: Rect, b: Rect)
  {
    if a.x + a.w <= b.x then false
    else if a.x >= b.x + b.w then false
    else if a.y + a.h <= b.y then false
    else if a.y >= b.y + b.h then false
    else true
  }

  /** The pixel cell (px, py) belongs to the box. */
  ghost predicate Covers(r: Rect, px: int, py: int)
  {
    r.x <= px < r.x + r.w && r.y <= py < r.y + r.h
  }

  /** For boxes of positive size, the test holds exactly when they share a pixel cell. */
  lemma CollisionIffSharedCell(a: Rect, b: Rect)
    requires a.w > 0 && a.h > 0 && b.w > 0 && b.h > 0
    ensures CheckCollision(a, b) <==> exists px, py :: Covers(a, px, py) && Covers(b, px, py)
  {
    if CheckCollision(a, b) {
      var px := if a.x < b.x then b.x else a.x;
      var py := if a.y < b.y then b.y else a.y;
      assert Covers(a, px, py) && Covers(b, px, py);
    }
  }

  lemma CollisionSymmetric(a: Rect, b: Rect)
    ensures CheckCollision(a, b) == CheckCollision(b, a)
  {
  }

  /** Boxes that only touch along an edge do not collide. */
  lemma EdgeContactIsNoCollision(a: Rect, b: Rect)
    requires a.x + a.w == b.x || b.x + b.w == a.x || a.y + a.h == b.y || b.y + b.h == a.y
    ensures !CheckCollision(a, b) && !CheckCollision(b, a)
  {
  }

  /** distanceSquared (integer overflow is not modelled). */
  function DistanceSquared(x1: int, y1: int, x2: int, y2: int): (d: int)
    ensures d >= 0
    ensures d == 0 <==> x1 == x2 && y1 == y2
  {
    var dx := x1 - x2;
    var dy := y1 - y2;
    SquareNonNegative(dx);
    SquareNonNegative(dy);
    SquareZero(dx);
    SquareZero(dy);
    dx * dx + dy * dy
  }

  lemma DistanceSquaredSymmetric(x1: int, y1: int, x2: int, y2: int)
    ensures DistanceSquared(x1, y1, x2, y2) == DistanceSquared(x2, y2, x1, y1)
  {
    assert (x2 - x1) * (x2 - x1) == (x1 - x2) * (x1 - x2);
    assert (y2 - y1) * (y2 - y1) == (y1 - y2) * (y1 - y2);
  }

  lemma SquareNonNegative(a: int)
    ensures a * a >= 0
  {
    if a < 0 {
      assert a * a == (-a) * (-a);
    }
  }

  lemma SquareZero(a: int)
    ensures a * a == 0 <==> a == 0
  {
    if a > 0 {
      assert a * a >= a;
    } else if a < 0 {
      assert a * a == (-a) * (-a);
      assert (-a) * (-a) >= -a;
    }
  }

  /** Squares grow with the absolute value. */
  lemma SquareMonotone(a: int, b: int)
    requires (if a < 0 then -a else a) <= (if b < 0 then -b else b)
    ensures a * a <= b * b
  {
    var u := if a < 0 then -a else a;
    var v := if b < 0 then -b else b;
    assert a * a == u * u;
    assert b * b == v * v;
    NonNegativeSquaresMonotone(u, v);
  }

  lemma NonNegativeSquaresMonotone(u: int, v: int)
    requires 0 <= u <= v
    ensures u * u <= v * v
  {
    assert u * u <= u * v;
    assert u * v <= v * v;
  }

  /** Some pair of sub-boxes, one from each list, overlaps. */
  ghost predicate InnerBoxesCollide(a: seq<Rect>, b: seq<Rect>)
  {
    exists i, j :: 0 <= i < |a| && 0 <= j < |b| && CheckCollision(a[i], b[j])
  }

  /**
   * checkInnerBoxesCollisions: the nested scan over both lists. A NULL list
   * is the empty array here, for which the answer is false.
   */
  method CheckInnerBoxesCollisions(a: array<Rect>, b: array<Rect>) returns (r: bool)
    ensures r <==> InnerBoxesCollide(a[..], b[..])
    ensures a.Length == 0 || b.Length == 0 ==> !r
  {
    var i := 0;
    while i < a.Length
      invariant 0 <= i <= a.Length
      invariant forall i', j' :: 0 <= i' < i && 0 <= j' < b.Length ==> !CheckCollision(a[i'], b[j'])
    {
      var j := 0;
      while j < b.Length
        invariant 0 <= j <= b.Length
        invariant forall j' :: 0 <= j' < j ==> !CheckCollision(a[i], b[j'])
      {
        if CheckCollision(a[i], b[j]) {
          assert a[..][i] == a[i] && b[..][j] == b[j];
          return true;
        }
        j := j + 1;
      }
      i := i + 1;
    }
    return false;
  }

  function Clamp(v: int, lo: int, hi: int): int
  {
    if v < lo then lo else if v > hi then hi else v
  }

  /** Two circles overlap when the centres are closer than the sum of the radii. */
  predicate CirclesOverlap(a: Circle, b: Circle)
  {
    DistanceSquared(a.x, a.y, b.x, b.y) < (a.r + b.r) * (a.r + b.r)
  }

  /** Circle against box: the point of the box nearest the centre lies inside the circle. */
  predicate CircleOverlapsBox(c: Circle, b: Rect)
  {
    DistanceSquared(c.x, c.y, Clamp(c.x, b.x, b.x + b.w), Clamp(c.y, b.y, b.y + b.h)) < c.r * c.r
  }

  /** The point lies in the closed box [x, x+w] x [y, y+h]. */
  ghost predicate InClosedBox(b: Rect, px: int, py: int)
  {
    b.x <= px <= b.x + b.w && b.y <= py <= b.y + b.h
  }

  /**
   * The clamped point is the nearest point of the box, so the clamping test
   * holds exactly when some point of the closed box lies inside the circle.
   */
  lemma CircleBoxIffSomePointInside(c: Circle, b: Rect)
    requires b.w >= 0 && b.h >= 0
    ensures CircleOverlapsBox(c, b) <==>
            exists px, py :: InClosedBox(b, px, py) && DistanceSquared(c.x, c.y, px, py) < c.r * c.r
  {
    var qx := Clamp(c.x, b.x, b.x + b.w);
    var qy := Clamp(c.y, b.y, b.y + b.h);
    if CircleOverlapsBox(c, b) {
      assert InClosedBox(b, qx, qy);
    }
    forall px, py | InClosedBox(b, px, py)
      ensures DistanceSquared(c.x, c.y, qx, qy) <= DistanceSquared(c.x, c.y, px, py)
    {
      SquareMonotone(c.x - qx, c.x - px);
      SquareMonotone(c.y - qy, c.y - py);
    }
  }
}
