/** Vocabulary shared by every part of the simulation: the game state, the
    logical screen the positions refer to, and axis-aligned boxes. */
module Common {

  /** The three states the game moves through; Dead is never left. */
  datatype GameState = Ready | Playing | Dead

  /** The logical screen is 640 by 480 units with (0, 0) in the lower-left
      corner and y pointing up; its centre anchors every initial placement. */
  const ScreenWidth: int := 640
  const ScreenHeight: int := 480
  const CenterX: int := ScreenWidth / 2
  const CenterY: int := ScreenHeight / 2

  /** The base sprite is 112 high and its layer sits 50 below the origin, so
      its top edge, the ground, is at 62. */
  const BaseHeight: int := 112
  const BaseDrop: int := 50

  /** A sprite's extent: lower-left corner (x, y), width w and height h. */
  datatype Box = Box(x: real, y: real, w: real, h: real)

  /** The overlap test the collision check uses: the two boxes' interiors
      meet along both axes. */
  predicate Overlap(a: Box, b: Box)
  {
    a.x + a.w > b.x && a.x < b.x + b.w && a.y + a.h > b.y && a.y < b.y + b.h
  }

  /** The point (px, py) lies strictly inside box b. */
  predicate Inside(px: real, py: real, b: Box)
  {
    b.x < px < b.x + b.w && b.y < py < b.y + b.h
  }

  function Max(a: real, b: real): (m: real) { if a < b then b else a }
  function Min(a: real, b: real): (m: real) { if a < b then a else b }

  /** The four inequalities of Overlap say exactly that some point lies inside
      both boxes, for boxes of positive size. */
  lemma OverlapIffSharedPoint(a: Box, b: Box)
    requires a.w > 0.0 && a.h > 0.0 && b.w > 0.0 && b.h > 0.0
    ensures Overlap(a, b) <==> exists px, py :: Inside(px, py, a) && Inside(px, py, b)
  {
    if Overlap(a, b) {
      var px := (Max(a.x, b.x) + Min(a.x + a.w, b.x + b.w)) / 2.0;
      var py := (Max(a.y, b.y) + Min(a.y + a.h, b.y + b.h)) / 2.0;
      assert Inside(px, py, a) && Inside(px, py, b);
    }
  }

  /** Overlap does not depend on which box is the player's. */
  lemma OverlapSymmetric(a: Box, b: Box)
    ensures Overlap(a, b) == Overlap(b, a)
  {
  }
}
