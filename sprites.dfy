/**
 * Sprites: clip bookkeeping, animation, and the collider engine that moves a
 * sprite provisionally, tests the moved shapes and then commits or rolls back.
 */
module Sprites {
  import opened Wrappers
  import opened Config
  import opened Geometry
  import opened Colliders
  import opened Tiles

  datatype Flip = FlipNone | FlipHorizontal

  /** The collision callback a sprite carries: none, or the one installed for Pac-Man. */
  datatype Handler = NoHandler | PacHandler

  /** The party a collision handler is called with. */
  datatype Party = TileParty(tile: nat) | SpriteParty(candidate: nat)

  /** Outcome of testing a provisionally moved sprite. */
  datatype Verdict = Free | OutOfBounds | Hit(party: Party)

  /** The candidate list as `move` sees it: None where the entry is NULL or the moving sprite. */
  type View = Option<ColliderSet>

  /** The first candidate index whose shapes collide with the moved sprite's. */
  ghost predicate IsFirstColliding(moved: ColliderSet, others: seq<View>, hit: Option<nat>)
  {
    match hit
    case None => forall j :: 0 <= j < |others| && others[j].Some? ==> !SpritesCollide(moved, others[j].value)
    case Some(k) =>
      k < |others| && others[k].Some? && SpritesCollide(moved, others[k].value) &&
      forall j :: 0 <= j < k && others[j].Some? ==> !SpritesCollide(moved, others[j].value)
  }

  ghost function FirstCollidingFrom(moved: ColliderSet, others: seq<View>, from: nat): Option<nat>
    requires from <= |others|
    decreases |others| - from
  {
    if from == |others| then None
    else if others[from].Some? && SpritesCollide(moved, others[from].value) then Some(from)
    else FirstCollidingFrom(moved, others, from + 1)
  }

  /** The first candidate, in list order, that collides with the moved shapes. */
  ghost function FirstColliding(moved: ColliderSet, others: seq<View>): Option<nat>
  {
    FirstCollidingFrom(moved, others, 0)
  }

  lemma {:induction false} FirstCollidingFromSpec(moved: ColliderSet, others: seq<View>, from: nat)
    requires from <= |others|
    requires forall j :: 0 <= j < from && others[j].Some? ==> !SpritesCollide(moved, others[j].value)
    ensures IsFirstColliding(moved, others, FirstCollidingFrom(moved, others, from))
    decreases |others| - from
  {
    if from < |others| && !(others[from].Some? && SpritesCollide(moved, others[from].value)) {
      FirstCollidingFromSpec(moved, others, from + 1);
    }
  }

  /** FirstColliding finds the first colliding candidate, and None exactly when none collides. */
  lemma FirstCollidingSpec(moved: ColliderSet, others: seq<View>)
    ensures IsFirstColliding(moved, others, FirstColliding(moved, others))
  {
    FirstCollidingFromSpec(moved, others, 0);
  }

  lemma FirstCollidingIs(moved: ColliderSet, others: seq<View>, hit: Option<nat>)
    requires IsFirstColliding(moved, others, hit)
    ensures FirstColliding(moved, others) == hit
  {
    FirstCollidingSpec(moved, others);
    FirstCollidingUnique(moved, others, hit, FirstColliding(moved, others));
  }

  lemma FirstCollidingUnique(moved: ColliderSet, others: seq<View>, h1: Option<nat>, h2: Option<nat>)
    requires IsFirstColliding(moved, others, h1) && IsFirstColliding(moved, others, h2)
    ensures h1 == h2
  {
  }

  /**
   * The tests of `move`, in order, on the moved shapes: level bounds, then the
   * first solid tile, then the first colliding candidate.
   */
  ghost function Judge(moved: ColliderSet, tiles: seq<Tile>, others: seq<View>): Verdict
  {
    if CheckLevelBoundsCollision(moved) then OutOfBounds
    else match FirstBlocking(tiles, moved.box)
      case Some(i) => Hit(TileParty(i))
      case None =>
        match FirstColliding(moved, others)
        case Some(k) => Hit(SpriteParty(k))
        case None => Free
  }

  /** The party the handler receives, if any: only a hit calls it, and only a set handler. */
  function HandlerCall(handler: Handler, v: Verdict): (call: Option<Party>)
    ensures call.Some? <==> handler.PacHandler? && v.Hit?
    ensures call.Some? ==> call.value == v.party
  {
    if handler.PacHandler? && v.Hit? then Some(v.party) else None
  }

  /** A bounds hit never calls the handler, so it never reports a party. */
  lemma OutOfBoundsCallsNothing(handler: Handler, moved: ColliderSet, tiles: seq<Tile>, others: seq<View>)
    requires CheckLevelBoundsCollision(moved)
    ensures HandlerCall(handler, Judge(moved, tiles, others)) == None
  {
  }

  /** A tile hit, when it happens, is the first solid tile in map order overlapping the moved outer box. */
  lemma TileHitIsFirstSolidTile(moved: ColliderSet, tiles: seq<Tile>, others: seq<View>, i: nat)
    requires Judge(moved, tiles, others) == Hit(TileParty(i))
    ensures i < |tiles| && tiles[i].solid && CheckCollision(moved.box, tiles[i].collider)
    ensures forall j :: 0 <= j < i ==> !(tiles[j].solid && CheckCollision(moved.box, tiles[j].collider))
    ensures !CheckLevelBoundsCollision(moved)
  {
    FirstBlockingSpec(tiles, moved.box);
  }

  /** A sprite hit is the first non-NULL, non-self candidate that collides, after the bounds and every tile passed. */
  lemma SpriteHitIsFirstCandidate(moved: ColliderSet, tiles: seq<Tile>, others: seq<View>, k: nat)
    requires Judge(moved, tiles, others) == Hit(SpriteParty(k))
    ensures k < |others| && others[k].Some? && SpritesCollide(moved, others[k].value)
    ensures forall j :: 0 <= j < k && others[j].Some? ==> !SpritesCollide(moved, others[j].value)
    ensures !CheckLevelBoundsCollision(moved)
    ensures forall j :: 0 <= j < |tiles| ==> !(tiles[j].solid && CheckCollision(moved.box, tiles[j].collider))
  {
    FirstBlockingSpec(tiles, moved.box);
    FirstCollidingSpec(moved, others);
  }

  /** The moved sprite is free exactly when it is in bounds, no solid tile blocks it and no candidate collides. */
  lemma FreeIffNothingInTheWay(moved: ColliderSet, tiles: seq<Tile>, others: seq<View>)
    ensures Judge(moved, tiles, others) == Free <==>
      && !CheckLevelBoundsCollision(moved)
      && (forall j :: 0 <= j < |tiles| ==> !Blocks(tiles[j], moved.box))
      && (forall j :: 0 <= j < |others| && others[j].Some? ==> !SpritesCollide(moved, others[j].value))
  {
    var t := FirstBlocking(tiles, moved.box);
    var s := FirstColliding(moved, others);
    FirstBlockingSpec(tiles, moved.box);
    FirstCollidingSpec(moved, others);
    if (forall j :: 0 <= j < |tiles| ==> !Blocks(tiles[j], moved.box)) {
      FirstBlockingUnique(tiles, moved.box, t, None);
    }
    if (forall j :: 0 <= j < |others| && others[j].Some? ==> !SpritesCollide(moved, others[j].value)) {
      FirstCollidingUnique(moved, others, s, None);
    }
  }

  /** The frame-counter division of `animate`. */
  function ClipIndex(frame: int, nClips: int, delayFactor: int): int
    requires nClips >= 1 && delayFactor != 0
  {
    ProductNonZero(nClips, delayFactor);
    CDiv(frame, nClips * delayFactor)
  }

  lemma ProductNonZero(a: int, b: int)
    requires a >= 1 && b != 0
    ensures a * b != 0 && (b > 0 ==> a * b >= b)
  {
    if b > 0 {
      MulMonotone(1, a, b);
    } else {
      MulMonotone(1, a, -b);
      assert a * b == -(a * (-b));
    }
  }

  /** The frame after `animate`: reset to 0 once the division runs past the last clip. */
  function AnimatedFrame(frame: int, nClips: int, delayFactor: int): int
    requires nClips >= 1 && delayFactor != 0
  {
    if ClipIndex(frame, nClips, delayFactor) >= nClips then 0 else frame
  }

  /** The clip index `animate` asks for: the last clip on a reset. */
  function AnimatedIndex(frame: int, nClips: int, delayFactor: int): int
    requires nClips >= 1 && delayFactor != 0
  {
    if ClipIndex(frame, nClips, delayFactor) >= nClips then nClips - 1 else ClipIndex(frame, nClips, delayFactor)
  }

  lemma MulMonotone(a: int, b: int, m: int)
    requires 0 <= a <= b && m >= 0
    ensures a * m <= b * m
  {
  }

  /** For a positive divisor, the quotient is at least n exactly when the dividend is at least n times the divisor. */
  lemma QuotientAtLeast(f: int, m: int, n: int)
    requires f >= 0 && m > 0 && n >= 0
    ensures f / m >= n <==> f >= n * m
  {
    var q := f / m;
    assert f == q * m + f % m;
    if q >= n {
      MulMonotone(n, q, m);
    } else {
      MulMonotone(q, n - 1, m);
      assert (n - 1) * m + m == n * m;
    }
  }

  /** The clip `animate` selects always exists. */
  lemma AnimatedIndexInRange(frame: int, nClips: int, delayFactor: int)
    requires frame >= 0 && nClips >= 1 && delayFactor >= 1
    ensures 0 <= AnimatedIndex(frame, nClips, delayFactor) < nClips
  {
    var m := nClips * delayFactor;
    ProductNonZero(nClips, delayFactor);
    assert ClipIndex(frame, nClips, delayFactor) == frame / m;
    assert frame / m >= 0;
  }

  /** The frame is reset exactly when it reaches nClips * nClips * delayFactor, and then the last clip shows. */
  lemma AnimationResetIff(frame: int, nClips: int, delayFactor: int)
    requires frame >= 0 && nClips >= 1 && delayFactor >= 1
    ensures (ClipIndex(frame, nClips, delayFactor) >= nClips) <==> frame >= nClips * nClips * delayFactor
    ensures frame >= nClips * nClips * delayFactor ==>
      AnimatedFrame(frame, nClips, delayFactor) == 0 && AnimatedIndex(frame, nClips, delayFactor) == nClips - 1
  {
    var m := nClips * delayFactor;
    ProductNonZero(nClips, delayFactor);
    QuotientAtLeast(frame, m, nClips);
    assert nClips * m == nClips * nClips * delayFactor;
  }

  /** Below the reset point the frame is kept and the clip is frame / (nClips * delayFactor). */
  lemma AnimationNoReset(frame: int, nClips: int, delayFactor: int)
    requires frame >= 0 && nClips >= 1 && delayFactor >= 1
    requires frame < nClips * nClips * delayFactor
    ensures AnimatedFrame(frame, nClips, delayFactor) == frame
    ensures AnimatedIndex(frame, nClips, delayFactor) == frame / (nClips * delayFactor)
  {
    AnimationResetIff(frame, nClips, delayFactor);
  }

  /**
   * With the game loop incrementing the frame after each `animate`, a reset
   * at frame nClips*nClips*d is followed by frame 1, never 0. So in every
   * later cycle clip 0 shows for the m - 1 frames 1 .. m-1 (this lemma) and
   * the last clip for the m + 1 frames (nClips-1)*m .. nClips*m
   * (LastClipSpan), where m = nClips * d.
   */
  lemma FirstClipSpan(nClips: int, delayFactor: int, f: int)
    requires nClips >= 1 && delayFactor >= 1
    requires 1 <= f < nClips * delayFactor
    ensures AnimatedIndex(f, nClips, delayFactor) == 0 && AnimatedFrame(f, nClips, delayFactor) == f
  {
    var m := nClips * delayFactor;
    ProductNonZero(nClips, delayFactor);
    ProductNonZero(nClips, m);
    assert nClips * m == nClips * nClips * delayFactor;
    AnimationNoReset(f, nClips, delayFactor);
    DivSmall(f, m);
  }

  lemma DivSmall(f: int, m: int)
    requires 0 <= f < m
    ensures f / m == 0
  {
  }

  lemma LastClipSpan(nClips: int, delayFactor: int, f: int)
    requires nClips >= 1 && delayFactor >= 1
    requires (nClips - 1) * (nClips * delayFactor) <= f <= nClips * (nClips * delayFactor)
    ensures AnimatedIndex(f, nClips, delayFactor) == nClips - 1
  {
    var m := nClips * delayFactor;
    ProductNonZero(nClips, delayFactor);
    assert nClips * m == nClips * nClips * delayFactor;
    MulMonotone(0, nClips - 1, m);
    if f < nClips * m {
      AnimationNoReset(f, nClips, delayFactor);
      QuotientAtLeast(f, m, nClips - 1);
      QuotientAtLeast(f, m, nClips);
    } else {
      AnimationResetIff(f, nClips, delayFactor);
    }
  }

  /** Velocity, rotation and flip chosen by one arrow key. */
  datatype Steering = Steering(velX: int, velY: int, angle: int, flip: Flip)

  function Abs(v: int): int { if v < 0 then -v else v }

  /**
   * The key handling of hanndlePacInput: the first pressed key in the order
   * up, down, left, right; None when no arrow key is pressed.
   */
  function PacSteering(up: bool, down: bool, left: bool, right: bool): (s: Option<Steering>)
    ensures s.None? <==> !up && !down && !left && !right
    ensures s.Some? ==> (s.value.velX == 0 || s.value.velY == 0) && Abs(s.value.velX) + Abs(s.value.velY) == PAC_SPEED
    ensures s.Some? ==> (s.value.velY < 0 <==> up) && (s.value.velY > 0 <==> !up && down)
    ensures s.Some? ==> (s.value.velX < 0 <==> !up && !down && left) && (s.value.velX > 0 <==> !up && !down && !left && right)
    ensures s.Some? ==> (s.value.flip == FlipHorizontal <==> s.value.velX < 0)
  {
    if up then Some(Steering(0, -PAC_SPEED, -90, FlipNone))
    else if down then Some(Steering(0, PAC_SPEED, 90, FlipNone))
    else if left then Some(Steering(-PAC_SPEED, 0, 0, FlipHorizontal))
    else if right then Some(Steering(PAC_SPEED, 0, 0, FlipNone))
    else None
  }

  /** A pressed key overrides every key of lower priority. */
  lemma PacSteeringPriority(down: bool, left: bool, right: bool)
    ensures PacSteering(true, down, left, right) == PacSteering(true, false, false, false)
    ensures PacSteering(false, true, left, right) == PacSteering(false, true, false, false)
    ensures PacSteering(false, false, true, right) == PacSteering(false, false, true, false)
  {
  }

  /** Sprite: clips, the current render clip, optional scaling, colliders and motion. */
  class Sprite {
    const clips: array<Rect>
    /** renderRect points at clips[renderIndex]. */
    var renderIndex: nat
    var scaleRect: Option<Rect>
    var collider: Rect
    /** The sub-box list; a NULL list is the empty array. */
    var boxColliders: array<Rect>
    var circleCollider: Circle
    var x: int
    var y: int
    var w: int
    var h: int
    var velX: int
    var velY: int
    var frame: int
    /** Degrees; the source's double only ever holds whole values here. */
    var angle: int
    var flip: Flip
    var handler: Handler

    ghost predicate Valid()
      reads this
    {
      1 <= clips.Length && renderIndex < clips.Length && clips != boxColliders
    }

    /** The sprite's current collider shapes as one value. */
    function Colliders(): ColliderSet
      reads this, boxColliders
    {
      ColliderSet(collider, boxColliders[..], circleCollider)
    }

    /** The size rule of updateSpriteSize: the scale rectangle wins over the render clip. */
    ghost predicate SizeFollowsRender()
      requires Valid()
      reads this, clips
    {
      match scaleRect
      case Some(s) => w == s.w && h == s.h
      case None => w == clips[renderIndex].w && h == clips[renderIndex].h
    }

    twostate predicate MotionKept()
      reads this
    {
      x == old(x) && y == old(y) && velX == old(velX) && velY == old(velY) &&
      frame == old(frame) && angle == old(angle) && flip == old(flip) && handler == old(handler)
    }

    /** Everything `move` never touches: velocity, frame, heading, handler, look, and the sub-box array itself. */
    twostate predicate SteadyKept()
      reads this
    {
      boxColliders == old(boxColliders) && velX == old(velX) && velY == old(velY) && frame == old(frame) &&
      angle == old(angle) && flip == old(flip) && handler == old(handler) &&
      renderIndex == old(renderIndex) && scaleRect == old(scaleRect) && w == old(w) && h == old(h)
    }

    twostate predicate LookKept()
      reads this, clips
    {
      renderIndex == old(renderIndex) && scaleRect == old(scaleRect) && w == old(w) && h == old(h) &&
      clips[..] == old(clips[..])
    }

    twostate predicate CollidersKept()
      reads this, boxColliders
    {
      boxColliders == old(boxColliders) && Colliders() == old(Colliders())
    }

    /**
     * loadSprite: at least one clip, the first one current, no scaling, no
     * colliders and no motion. The clips are not initialised by the source;
     * they are zero boxes here.
     */
    constructor (nClips: int, x0: int, y0: int, angle0: int, flip0: Flip, handler0: Handler)
      ensures Valid() && fresh(clips) && fresh(boxColliders)
      ensures clips.Length == (if nClips > 0 then nClips else 1)
      ensures forall i :: 0 <= i < clips.Length ==> clips[i] == Rect(0, 0, 0, 0)
      ensures renderIndex == 0 && scaleRect == None && w == 0 && h == 0
      ensures x == x0 && y == y0 && velX == 0 && velY == 0 && frame == 0
      ensures angle == angle0 && flip == flip0 && handler == handler0
      ensures collider == Rect(0, 0, 0, 0) && boxColliders.Length == 0 && circleCollider.r == 0
      ensures !HasColliders(Colliders())
    {
      clips := new Rect[if nClips > 0 then nClips else 1](_ => Rect(0, 0, 0, 0));
      renderIndex := 0;
      scaleRect := None;
      w, h := 0, 0;
      x, y := x0, y0;
      velX, velY := 0, 0;
      angle, flip, frame := angle0, flip0, 0;
      collider := Rect(0, 0, 0, 0);
      circleCollider := Circle(0, 0, 0);
      boxColliders := new Rect[0];
      handler := handler0;
    }

    /** updateSpriteSize. */
    method UpdateSpriteSize()
      requires Valid()
      modifies this
      ensures Valid() && SizeFollowsRender()
      ensures renderIndex == old(renderIndex) && scaleRect == old(scaleRect)
      ensures MotionKept() && CollidersKept()
    {
      match scaleRect {
        case Some(s) =>
          w, h := s.w, s.h;
        case None =>
          w, h := clips[renderIndex].w, clips[renderIndex].h;
      }
    }

    /** addClip: an index outside [0, nClips) changes nothing. */
    method AddClip(index: int, clip: Rect, setRender: bool)
      requires Valid()
      modifies this, clips
      ensures Valid() && MotionKept() && CollidersKept() && scaleRect == old(scaleRect)
      ensures !(0 <= index < clips.Length) ==> LookKept()
      ensures 0 <= index < clips.Length ==> clips[..] == old(clips[..])[index := clip]
      ensures 0 <= index < clips.Length && setRender ==> renderIndex == index && SizeFollowsRender()
      ensures 0 <= index < clips.Length && !setRender ==>
        renderIndex == old(renderIndex) && w == old(w) && h == old(h)
    {
      if index < 0 || index >= clips.Length {
        return;
      }
      clips[index] := clip;
      if setRender {
        renderIndex := index;
        UpdateSpriteSize();
      }
    }

    /** setRenderRect: an index outside [0, nClips) changes nothing. */
    method SetRenderRect(index: int)
      requires Valid()
      modifies this
      ensures Valid() && MotionKept() && CollidersKept() && scaleRect == old(scaleRect)
      ensures !(0 <= index < clips.Length) ==> LookKept()
      ensures 0 <= index < clips.Length ==> renderIndex == index && SizeFollowsRender()
    {
      if index < 0 || index >= clips.Length {
        return;
      }
      renderIndex := index;
      UpdateSpriteSize();
    }

    /** setScaleRect: the sprite's size becomes (w, h) whatever clip is current. */
    method SetScaleRect(sw: int, sh: int)
      requires Valid()
      modifies this
      ensures Valid() && MotionKept() && CollidersKept() && renderIndex == old(renderIndex)
      ensures scaleRect == Some(Rect(0, 0, sw, sh)) && w == sw && h == sh
    {
      scaleRect := Some(Rect(0, 0, sw, sh));
      UpdateSpriteSize();
    }

    /** setDefaultCollider: the outer box becomes the sprite's own box. */
    method SetDefaultCollider()
      requires Valid()
      modifies this
      ensures Valid() && collider == Rect(x, y, w, h)
      ensures MotionKept() && boxColliders == old(boxColliders) && circleCollider == old(circleCollider)
      ensures renderIndex == old(renderIndex) && scaleRect == old(scaleRect) && w == old(w) && h == old(h)
    {
      collider := Rect(x, y, w, h);
    }

    /** The sub-box list loadMedia installs by hand: a fresh array holding `boxes`. */
    method SetBoxColliders(boxes: seq<Rect>)
      requires Valid()
      modifies this
      ensures Valid() && fresh(boxColliders) && boxColliders[..] == boxes
      ensures collider == old(collider) && circleCollider == old(circleCollider)
      ensures MotionKept() && renderIndex == old(renderIndex) && scaleRect == old(scaleRect) && w == old(w) && h == old(h)
    {
      boxColliders := new Rect[|boxes|](i requires 0 <= i < |boxes| => boxes[i]);
      assert boxColliders[..] == boxes;
    }

    /** animate: pick the clip from the frame counter, resetting the counter on wrap. */
    method Animate(delayFactor: int)
      requires Valid() && delayFactor != 0
      modifies this
      ensures Valid() && CollidersKept() && scaleRect == old(scaleRect)
      ensures frame == AnimatedFrame(old(frame), clips.Length, delayFactor)
      ensures x == old(x) && y == old(y) && velX == old(velX) && velY == old(velY)
      ensures angle == old(angle) && flip == old(flip) && handler == old(handler)
      ensures var i := AnimatedIndex(old(frame), clips.Length, delayFactor);
        if 0 <= i < clips.Length then renderIndex == i && SizeFollowsRender()
        else renderIndex == old(renderIndex) && w == old(w) && h == old(h)
    {
      ProductNonZero(clips.Length, delayFactor);
      var currentClipIndex := CDiv(frame, clips.Length * delayFactor);
      if currentClipIndex >= clips.Length {
        frame := 0;
        currentClipIndex := clips.Length - 1;
      }
      SetRenderRect(currentClipIndex);
    }

    /** shiftBoxColliders: every sub-box moves by (dx, dy). */
    method ShiftBoxColliders(dx: int, dy: int)
      modifies boxColliders
      ensures boxColliders[..] == ShiftRects(old(boxColliders[..]), dx, dy)
    {
      var i := 0;
      while i < boxColliders.Length
        invariant 0 <= i <= boxColliders.Length
        invariant forall k :: 0 <= k < i ==> boxColliders[k] == ShiftRect(old(boxColliders[k]), dx, dy)
        invariant forall k :: i <= k < boxColliders.Length ==> boxColliders[k] == old(boxColliders[k])
      {
        boxColliders[i] := boxColliders[i].(x := boxColliders[i].x + dx, y := boxColliders[i].y + dy);
        i := i + 1;
      }
    }

    /** moveAllColliders: every present shape moves by (dx, dy). */
    method MoveAllColliders(dx: int, dy: int)
      requires Valid()
      modifies this, boxColliders
      ensures Valid() && Colliders() == Translate(old(Colliders()), dx, dy)
      ensures SteadyKept() && x == old(x) && y == old(y)
    {
      if collider.w != 0 || collider.h != 0 {
        collider := collider.(x := collider.x + dx, y := collider.y + dy);
      }
      if boxColliders.Length != 0 {
        ShiftBoxColliders(dx, dy);
      }
      if circleCollider.r != 0 {
        circleCollider := circleCollider.(x := circleCollider.x + dx, y := circleCollider.y + dy);
      }
    }

    /** moveTo: jump to (px, py) with every present shape, without collision tests. */
    method MoveTo(px: int, py: int)
      requires Valid()
      modifies this, boxColliders
      ensures Valid() && x == px && y == py
      ensures Colliders() == Translate(old(Colliders()), px - old(x), py - old(y))
      ensures Offsets(Colliders(), x, y) == Offsets(old(Colliders()), old(x), old(y))
      ensures boxColliders == old(boxColliders) && velX == old(velX) && velY == old(velY)
      ensures frame == old(frame) && angle == old(angle) && flip == old(flip) && handler == old(handler)
      ensures renderIndex == old(renderIndex) && scaleRect == old(scaleRect) && w == old(w) && h == old(h)
    {
      TranslateKeepsOffsets(Colliders(), x, y, px - x, py - y);
      MoveAllColliders(px - x, py - y);
      x, y := px, py;
    }

    /** The view `move` takes of one candidate entry. */
    ghost function ViewOf(c: Sprite?): View
      reads c, if c != null then {c.boxColliders} else {}
    {
      if c == null || c == this then None else Some(c.Colliders())
    }

    /** The views of all candidates, in order. */
    ghost function Others(cands: seq<Sprite?>): (r: seq<View>)
      reads set k | 0 <= k < |cands| :: cands[k]
      reads set k | 0 <= k < |cands| && cands[k] != null :: cands[k].boxColliders
      ensures |r| == |cands|
      ensures forall k :: 0 <= k < |cands| ==> r[k] == ViewOf(cands[k])
      decreases |cands|
    {
      if |cands| == 0 then [] else
        assert forall k :: 0 <= k < |cands| - 1 ==> cands[1..][k] == cands[k + 1];
        [ViewOf(cands[0])] + Others(cands[1..])
    }

    /**
     * The test `move` applies to one candidate: circles, or outer boxes
     * refined by the sub-boxes when both sprites have some.
     */
    method CollidesWith(c: Sprite) returns (collide: bool)
      ensures collide == SpritesCollide(Colliders(), c.Colliders())
    {
      collide := CheckCircularCollision(Colliders(), c.Colliders());
      if !collide && CheckCollision(collider, c.collider) {
        if boxColliders.Length == 0 || c.boxColliders.Length == 0 {
          collide := true;
        } else {
          collide := CheckInnerBoxesCollisions(boxColliders, c.boxColliders);
        }
      }
    }

    /**
     * The sprite-against-candidates loop of `move`: the first entry that is
     * neither NULL nor this sprite and whose shapes collide with this sprite's.
     */
    method FirstCollidingCandidate(cands: seq<Sprite?>) returns (hit: Option<nat>)
      ensures hit == FirstColliding(Colliders(), Others(cands))
    {
      ghost var others := Others(cands);
      ghost var me := Colliders();
      var i := 0;
      while i < |cands|
        invariant 0 <= i <= |cands|
        invariant FirstCollidingFrom(me, others, i) == FirstColliding(me, others)
      {
        var c := cands[i];
        if c != null && c != this {
          var collide := CollidesWith(c);
          assert others[i] == Some(c.Colliders());
          if collide {
            return Some(i);
          }
        }
        i := i + 1;
      }
      return None;
    }

    /**
     * The tests of `move` on the sprite's current shapes, in order: level
     * bounds, then the tiles, then the candidates.
     */
    method Probe(tiles: array<Tile>, cands: seq<Sprite?>) returns (v: Verdict)
      ensures v == Judge(Colliders(), tiles[..], Others(cands))
    {
      if CheckLevelBoundsCollision(Colliders()) {
        return OutOfBounds;
      }
      var tileHit := CheckTileMapCollisions(tiles, collider);
      if tileHit.Some? {
        return Hit(TileParty(tileHit.value));
      }
      var spriteHit := FirstCollidingCandidate(cands);
      if spriteHit.Some? {
        return Hit(SpriteParty(spriteHit.value));
      }
      return Free;
    }

    /**
     * move: a sprite with colliders shifts every present shape by its
     * velocity, tests the moved shapes, and either commits (the position
     * advances) or rolls the shapes back. A sprite without colliders always
     * advances. The result is the party the collision handler is called
     * with, if it is called.
     */
    method Move(tiles: array<Tile>, cands: seq<Sprite?>) returns (called: Option<Party>)
      requires Valid()
      requires forall k :: 0 <= k < |cands| && cands[k] != null && cands[k] != this ==> cands[k].boxColliders != boxColliders
      modifies this, boxColliders
      ensures Valid() && SteadyKept()
      ensures !HasColliders(old(Colliders())) ==>
        x == old(x) + velX && y == old(y) + velY && Colliders() == old(Colliders()) && called == None
      ensures HasColliders(old(Colliders())) ==>
        var moved := Translate(old(Colliders()), velX, velY);
        var v := Judge(moved, tiles[..], old(Others(cands)));
        && called == HandlerCall(handler, v)
        && (v == Free ==> x == old(x) + velX && y == old(y) + velY && Colliders() == moved)
        && (v != Free ==> x == old(x) && y == old(y) && Colliders() == old(Colliders()))
    {
      if !HasColliders(Colliders()) {
        x, y := x + velX, y + velY;
        return None;
      }
      called := MoveChecked(tiles, cands);
    }

    /** The collider branch of `move`: provisional shift, tests, then commit or roll-back. */
    method MoveChecked(tiles: array<Tile>, cands: seq<Sprite?>) returns (called: Option<Party>)
      requires Valid() && HasColliders(Colliders())
      requires forall k :: 0 <= k < |cands| && cands[k] != null && cands[k] != this ==> cands[k].boxColliders != boxColliders
      modifies this, boxColliders
      ensures Valid() && SteadyKept()
      ensures var v := Judge(Translate(old(Colliders()), velX, velY), tiles[..], old(Others(cands)));
        && called == HandlerCall(handler, v)
        && (v == Free ==> x == old(x) + velX && y == old(y) + velY && Colliders() == Translate(old(Colliders()), velX, velY))
        && (v != Free ==> x == old(x) && y == old(y) && Colliders() == old(Colliders()))
    {
      ghost var before := Colliders();
      var v := ShiftAndProbe(tiles, cands);
      if v == Free {
        x, y := x + velX, y + velY;
        called := None;
      } else {
        called := if handler.PacHandler? && v.Hit? then Some(v.party) else None;
        MoveAllColliders(-velX, -velY);
        TranslateInverse(before, velX, velY);
      }
    }

    /** The provisional half of `move`: shift every present shape by the velocity, then test the moved shapes. */
    method ShiftAndProbe(tiles: array<Tile>, cands: seq<Sprite?>) returns (v: Verdict)
      requires Valid()
      requires forall k :: 0 <= k < |cands| && cands[k] != null && cands[k] != this ==> cands[k].boxColliders != boxColliders
      modifies this, boxColliders
      ensures Valid() && SteadyKept() && x == old(x) && y == old(y)
      ensures Colliders() == Translate(old(Colliders()), velX, velY)
      ensures v == Judge(Colliders(), tiles[..], old(Others(cands)))
    {
      MoveAllColliders(velX, velY);
      OthersUnchanged(cands);
      v := Probe(tiles, cands);
    }

    /** Candidates other than this sprite, whose shapes this sprite's moves never touch, keep their views. */
    twostate lemma OthersUnchanged(cands: seq<Sprite?>)
      requires forall k :: 0 <= k < |cands| && cands[k] != null && cands[k] != this ==>
        unchanged(cands[k]) && unchanged(cands[k].boxColliders)
      ensures Others(cands) == old(Others(cands))
    {
      assert forall k :: 0 <= k < |cands| ==> Others(cands)[k] == old(Others(cands))[k];
    }

    /** hanndlePacInput: the pressed arrow keys steer Pac-Man; no key stops him, keeping his heading. */
    method HandlePacInput(up: bool, down: bool, left: bool, right: bool)
      modifies this
      ensures match PacSteering(up, down, left, right)
        case None => velX == 0 && velY == 0 && angle == old(angle) && flip == old(flip)
        case Some(st) => velX == st.velX && velY == st.velY && angle == st.angle && flip == st.flip
      ensures x == old(x) && y == old(y) && frame == old(frame) && handler == old(handler)
      ensures collider == old(collider) && boxColliders == old(boxColliders) && circleCollider == old(circleCollider)
      ensures renderIndex == old(renderIndex) && scaleRect == old(scaleRect) && w == old(w) && h == old(h)
    {
      if up {
        velY, velX, angle, flip := -PAC_SPEED, 0, -90, FlipNone;
      } else if down {
        velY, velX, angle, flip := PAC_SPEED, 0, 90, FlipNone;
      } else if left {
        velX, velY, angle, flip := -PAC_SPEED, 0, 0, FlipHorizontal;
      } else if right {
        velX, velY, angle, flip := PAC_SPEED, 0, 0, FlipNone;
      } else {
        velX, velY := 0, 0;
      }
    }
  }
}
