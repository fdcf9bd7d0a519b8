/**
 * The three collider shapes a sprite carries (outer box, ordered sub-boxes,
 * circle) as one value, how they move together, and the tests the movement
 * engine runs against level bounds and against another sprite.
 */
module Colliders {
  import opened Config
  import opened Geometry

  /** Snapshot of a sprite's colliders: `collider`, `boxColliders[..]` and `circleCollider`. */
  datatype ColliderSet = ColliderSet(box: Rect, boxes: seq<Rect>, circle: Circle)

  /** The outer box is absent when it has neither width nor height. */
  predicate BoxPresent(s: ColliderSet) { s.box.w != 0 || s.box.h != 0 }

  predicate SubBoxesPresent(s: ColliderSet) { |s.boxes| != 0 }

  /** A zero radius is the sentinel for "no circle". */
  predicate CirclePresent(s: ColliderSet) { s.circle.r != 0 }

  /** hasColliders. */
  predicate HasColliders(s: ColliderSet)
  {
    BoxPresent(s) || SubBoxesPresent(s) || CirclePresent(s)
  }

  function ShiftRect(r: Rect, dx: int, dy: int): Rect
  {
    r.(x := r.x + dx, y := r.y + dy)
  }

  /** shiftBoxColliders on values: every sub-box moves by (dx, dy), sizes kept. */
  function ShiftRects(rs: seq<Rect>, dx: int, dy: int): (out: seq<Rect>)
    ensures |out| == |rs|
    ensures forall i :: 0 <= i < |rs| ==> out[i] == ShiftRect(rs[i], dx, dy)
  {
    seq(|rs|, i requires 0 <= i < |rs| => ShiftRect(rs[i], dx, dy))
  }

  /** moveAllColliders on values: each PRESENT shape moves by (dx, dy); absent shapes stay put. */
  function Translate(s: ColliderSet, dx: int, dy: int): ColliderSet
  {
    ColliderSet(
      if BoxPresent(s) then ShiftRect(s.box, dx, dy) else s.box,
      if SubBoxesPresent(s) then ShiftRects(s.boxes, dx, dy) else s.boxes,
      if CirclePresent(s) then Circle(s.circle.x + dx, s.circle.y + dy, s.circle.r) else s.circle)
  }

  /** Moving never adds or removes a shape, and never changes a size or the radius. */
  lemma TranslateKeepsShapes(s: ColliderSet, dx: int, dy: int)
    ensures var t := Translate(s, dx, dy);
      && (BoxPresent(t) <==> BoxPresent(s))
      && (SubBoxesPresent(t) <==> SubBoxesPresent(s))
      && (CirclePresent(t) <==> CirclePresent(s))
      && t.box.w == s.box.w && t.box.h == s.box.h && t.circle.r == s.circle.r
      && |t.boxes| == |s.boxes|
      && (forall i :: 0 <= i < |s.boxes| ==> t.boxes[i].w == s.boxes[i].w && t.boxes[i].h == s.boxes[i].h)
  {
  }

  /** Two translations add up; this is what keeps shapes in step with the sprite position. */
  lemma TranslateCompose(s: ColliderSet, dx1: int, dy1: int, dx2: int, dy2: int)
    ensures Translate(Translate(s, dx1, dy1), dx2, dy2) == Translate(s, dx1 + dx2, dy1 + dy2)
  {
    var t := Translate(Translate(s, dx1, dy1), dx2, dy2);
    var u := Translate(s, dx1 + dx2, dy1 + dy2);
    if SubBoxesPresent(s) {
      assert t.boxes == u.boxes;
    }
  }

  /** The roll-back of `move`: translating by the negated velocity restores every shape. */
  lemma TranslateInverse(s: ColliderSet, dx: int, dy: int)
    ensures Translate(Translate(s, dx, dy), -dx, -dy) == s
  {
    TranslateCompose(s, dx, dy, -dx, -dy);
    TranslateZero(s);
  }

  lemma TranslateZero(s: ColliderSet)
    ensures Translate(s, 0, 0) == s
  {
    if SubBoxesPresent(s) {
      assert ShiftRects(s.boxes, 0, 0) == s.boxes;
    }
  }

  /** A sprite without colliders is not affected by moving its (absent) shapes. */
  lemma TranslateAbsent(s: ColliderSet, dx: int, dy: int)
    requires !HasColliders(s)
    ensures Translate(s, dx, dy) == s
  {
  }

  /**
   * The shapes measured from the sprite position (x, y). A shape that is
   * absent has no offset to keep, so it is left as it is.
   */
  function Offsets(s: ColliderSet, x: int, y: int): ColliderSet
  {
    Translate(s, -x, -y)
  }

  /** Moving the position and the shapes by the same delta keeps every offset. */
  lemma TranslateKeepsOffsets(s: ColliderSet, x: int, y: int, dx: int, dy: int)
    ensures Offsets(Translate(s, dx, dy), x + dx, y + dy) == Offsets(s, x, y)
  {
    TranslateCompose(s, dx, dy, -(x + dx), -(y + dy));
  }

  /** checkLevelBoundsCollision: only the outer box is compared with the level. */
  predicate CheckLevelBoundsCollision(s: ColliderSet)
  {
    s.box.x < 0 || s.box.x + s.box.w > LEVEL_WIDTH || s.box.y < 0 || s.box.y + s.box.h > LEVEL_HEIGHT
  }

  /** Passing the bounds test puts every pixel of the outer box inside the level. */
  lemma InBoundsCellsInLevel(s: ColliderSet, px: int, py: int)
    requires !CheckLevelBoundsCollision(s) && Covers(s.box, px, py)
    ensures 0 <= px < LEVEL_WIDTH && 0 <= py < LEVEL_HEIGHT
  {
  }

  /**
   * checkCircularCollision: circle against circle when both have one, the
   * circle against the other's outer box when exactly one has one, false otherwise.
   */
  predicate CheckCircularCollision(a: ColliderSet, b: ColliderSet)
  {
    if CirclePresent(a) && CirclePresent(b) then CirclesOverlap(a.circle, b.circle)
    else if CirclePresent(a) then CircleOverlapsBox(a.circle, b.box)
    else if CirclePresent(b) then CircleOverlapsBox(b.circle, a.box)
    else false
  }

  /**
   * The sprite-against-sprite test of `move`: circles, OR outer boxes refined
   * by the sub-boxes when both sprites have sub-boxes. The box route is tried
   * even when circles are present.
   */
  ghost predicate SpritesCollide(a: ColliderSet, b: ColliderSet)
  {
    CheckCircularCollision(a, b) ||
    (CheckCollision(a.box, b.box) && (|a.boxes| == 0 || |b.boxes| == 0 || InnerBoxesCollide(a.boxes, b.boxes)))
  }

  /** Which sprite is moving does not matter to the sprite-against-sprite test. */
  lemma SpritesCollideSymmetric(a: ColliderSet, b: ColliderSet)
    ensures SpritesCollide(a, b) == SpritesCollide(b, a)
  {
    DistanceSquaredSymmetric(a.circle.x, a.circle.y, b.circle.x, b.circle.y);
    assert (a.circle.r + b.circle.r) == (b.circle.r + a.circle.r);
    if InnerBoxesCollide(a.boxes, b.boxes) {
      var i, j :| 0 <= i < |a.boxes| && 0 <= j < |b.boxes| && CheckCollision(a.boxes[i], b.boxes[j]);
      CollisionSymmetric(a.boxes[i], b.boxes[j]);
    }
    if InnerBoxesCollide(b.boxes, a.boxes) {
      var j, i :| 0 <= j < |b.boxes| && 0 <= i < |a.boxes| && CheckCollision(b.boxes[j], a.boxes[i]);
      CollisionSymmetric(b.boxes[j], a.boxes[i]);
    }
  }

  /**
   * Circles never veto the box route: overlapping outer boxes block a sprite
   * without sub-boxes even when both sprites carry circles that are far apart.
   */
  lemma BoxRouteIgnoresCircles(a: ColliderSet, b: ColliderSet)
    requires CheckCollision(a.box, b.box) && |a.boxes| == 0
    ensures SpritesCollide(a, b)
  {
  }
}
