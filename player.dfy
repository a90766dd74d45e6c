/** Faby, the player: vertical physics under gravity, the ground clamp that
    ends the game, the three-frame flap animation and the collision test
    against a barrier's pipes. */
module Player {
  import opened Common
  import Barriers

  /** Sprite size. */
  const Width: real := 34.0
  const Height: real := 24.0
  /** Change of velocity per frame while falling. */
  const Acceleration: real := -0.35
  /** The velocity a jump sets. */
  const JumpVelocity: real := 5.0
  /** Faby rests on the top edge of the base. */
  const Ground: real := (BaseHeight - BaseDrop) as real
  /** Faby's node is put 18 left of the screen's centre on every tick. */
  const ScreenX: real := (CenterX - 18) as real

  /** Which of the three animation sprites are shown. Before the first tick no
      sprite has been hidden, so all three show. */
  datatype Flap = AllShown | DownFlap | MidFlap | UpFlap

  /** Vertical velocity and position of the player. */
  datatype Motion = Motion(velocity: real, position: real)

  /** Where the ground clamp puts a player that fell through the base. */
  const Rest: Motion := Motion(0.0, Ground)

  /** The frame chosen from the velocity before physics: rising fast shows the
      downflap, falling fast the upflap, slow motion the midflap; at exactly
      1 or -1 none of the three tests holds and the shown frame stays. */
  function NextFlap(v: real, shown: Flap): (f: Flap)
    ensures v == 1.0 || v == -1.0 ==> f == shown
    ensures v != 1.0 && v != -1.0 ==>
              && f != AllShown
              && (f == UpFlap <==> v < -1.0)
              && (f == DownFlap <==> v > 1.0)
              && (f == MidFlap <==> -1.0 < v < 1.0)
  {
    if v < -1.0 then UpFlap
    else if -1.0 < v < 1.0 then MidFlap
    else if v > 1.0 then DownFlap
    else shown
  }

  /** Physics of one frame: only while playing or dead, velocity first takes
      the acceleration, then the position takes the new velocity. */
  function Integrate(state: GameState, m: Motion): (r: Motion)
  {
    if state == Playing || state == Dead then
      var v := m.velocity + Acceleration;
      Motion(v, m.position + v)
    else
      m
  }

  /** The player is below the top of the base. */
  predicate BelowGround(m: Motion)
  {
    m.position < Ground
  }

  /** Physics followed by the ground clamp. */
  function Advance(state: GameState, m: Motion): (r: Motion)
    ensures r.position >= Ground
    ensures r == Integrate(state, m) || r == Rest
  {
    var n := Integrate(state, m);
    if BelowGround(n) then Rest else n
  }

  /** The state after Faby's tick: touching the ground kills. */
  function StateAfter(state: GameState, m: Motion): (s: GameState)
    ensures s == state || s == Dead
  {
    if BelowGround(Integrate(state, m)) then Dead else state
  }

  /** The physics step as the source states it: in Ready nothing moves; in
      Playing and Dead the velocity drops by 0.35 and the position moves by
      the new velocity, unless that goes below the ground. The ground test
      itself runs in every state. */
  lemma PhysicsStep(state: GameState, m: Motion)
    ensures state == Ready && m.position >= Ground ==>
              Advance(state, m) == m && StateAfter(state, m) == Ready
    ensures state != Ready && m.position + m.velocity + Acceleration >= Ground ==>
              && Advance(state, m).velocity == m.velocity - 0.35
              && Advance(state, m).position == m.position + Advance(state, m).velocity
              && StateAfter(state, m) == state
    ensures state != Ready && m.position + m.velocity + Acceleration < Ground ==>
              Advance(state, m) == Rest && StateAfter(state, m) == Dead
  {
  }

  /** The ground clamp is idempotent: once resting on the ground in Dead, one
      more frame leaves the player resting there. */
  lemma RestIsFixedPoint()
    ensures Advance(Dead, Rest) == Rest && StateAfter(Dead, Rest) == Dead
  {
    assert BelowGround(Integrate(Dead, Rest));
  }

  /** n frames of Faby's physics and ground clamp from state s and motion m. */
  function AdvanceN(n: nat, s: GameState, m: Motion): (r: (GameState, Motion))
  {
    if n == 0 then (s, m)
    else AdvanceN(n - 1, StateAfter(s, m), Advance(s, m))
  }

  /** Every later frame leaves a dead player resting on the ground. */
  lemma {:induction false} RestIsAbsorbing(n: nat)
    ensures AdvanceN(n, Dead, Rest) == (Dead, Rest)
  {
    if n > 0 {
      RestIsFixedPoint();
      RestIsAbsorbing(n - 1);
    }
  }

  /** Once dead, the player stays dead: after any number of frames it is
      still dead, and after at least one it is at or above the ground. */
  lemma {:induction false} DeadStaysDead(n: nat, m: Motion)
    ensures AdvanceN(n, Dead, m).0 == Dead
    ensures n > 0 ==> AdvanceN(n, Dead, m).1.position >= Ground
  {
    if n > 0 {
      DeadStaysDead(n - 1, Advance(Dead, m));
    }
  }

  /** Faby's box at node position (x, y). */
  function BoxAt(x: real, y: real): (b: Box)
  {
    Box(x, y, Width, Height)
  }

  /** The player's box overlaps one of the pipes. */
  predicate HitsAny(me: Box, pipes: seq<Box>)
  {
    exists k :: 0 <= k < |pipes| && Overlap(me, pipes[k])
  }

  /** A player whose box lies within the 100-high gap of a barrier at (px, py)
      touches neither pipe, wherever it is horizontally. */
  lemma GapIsSafe(fx: real, fy: real, px: real, py: real)
    requires py + Barriers.PipeHeight <= fy && fy + Height <= py + Barriers.UpperPipeOffset
    ensures !HitsAny(BoxAt(fx, fy), Barriers.PipesAt(px, py))
  {
    var pipes := Barriers.PipesAt(px, py);
    assert !Overlap(BoxAt(fx, fy), pipes[0]) && !Overlap(BoxAt(fx, fy), pipes[1]);
  }

  /** A player horizontally clear of the pipes' column touches neither pipe. */
  lemma ClearOfColumnIsSafe(fx: real, fy: real, px: real, py: real)
    requires fx + Width <= px || px + Barriers.PipeWidth <= fx
    ensures !HitsAny(BoxAt(fx, fy), Barriers.PipesAt(px, py))
  {
    var pipes := Barriers.PipesAt(px, py);
    assert !Overlap(BoxAt(fx, fy), pipes[0]) && !Overlap(BoxAt(fx, fy), pipes[1]);
  }

  /** Inside the pipes' column, a player reaching below the gap hits the
      lower pipe, and one reaching above it hits the upper pipe. */
  lemma OutsideGapHits(fx: real, fy: real, px: real, py: real)
    requires fx + Width > px && fx < px + Barriers.PipeWidth
    requires py < fy + Height && fy < py + Barriers.UpperPipeOffset + Barriers.PipeHeight
    requires fy < py + Barriers.PipeHeight || fy + Height > py + Barriers.UpperPipeOffset
    ensures HitsAny(BoxAt(fx, fy), Barriers.PipesAt(px, py))
  {
    var pipes := Barriers.PipesAt(px, py);
    if fy < py + Barriers.PipeHeight {
      assert Overlap(BoxAt(fx, fy), pipes[0]);
    } else {
      assert Overlap(BoxAt(fx, fy), pipes[1]);
    }
  }

  class Faby {
    var velocity: real
    var position: real
    var flap: Flap
    /** Translation of the node holding the three sprites. */
    var nodeX: real
    var nodeY: real

    /** Faby never sits below the ground, and it shows all three sprites
        only while its velocity is not on a frame boundary (so the first tick
        always picks one sprite). */
    ghost predicate Valid()
      reads this
    {
      && position >= Ground
      && (flap == AllShown ==> velocity != 1.0 && velocity != -1.0)
    }

    function CurrentMotion(): (m: Motion)
      reads this
    {
      Motion(velocity, position)
    }

    /** A new Faby starts at rest at the screen's vertical centre, its node
        still at the origin. */
    constructor ()
      ensures Valid()
      ensures velocity == 0.0 && position == CenterY as real
      ensures flap == AllShown && nodeX == 0.0 && nodeY == 0.0
    {
      velocity := 0.0;
      position := CenterY as real;
      flap := AllShown;
      nodeX, nodeY := 0.0, 0.0;
    }

    /** One frame: pick the animation frame from the current velocity, apply
        physics (only while playing or dead), clamp at the ground (which kills),
        then place the node at (CenterX - 18, position). */
    method Tick(state: GameState) returns (newState: GameState)
      requires Valid()
      modifies this
      ensures Valid()
      ensures flap == NextFlap(old(velocity), old(flap)) && flap != AllShown
      ensures CurrentMotion() == Advance(state, old(CurrentMotion()))
      ensures newState == StateAfter(state, old(CurrentMotion()))
      ensures nodeX == ScreenX && nodeY == position
    {
      if velocity < -1.0 {
        flap := UpFlap;
      }
      if velocity > -1.0 && velocity < 1.0 {
        flap := MidFlap;
      }
      if velocity > 1.0 {
        flap := DownFlap;
      }
      newState := state;
      if state == Playing || state == Dead {
        velocity := velocity + Acceleration;
        position := position + velocity;
      }
      if position < Ground {
        position := Ground;
        velocity := 0.0;
        newState := Dead;
      }
      nodeX, nodeY := ScreenX, position;
    }

    /** A jump sets the velocity to 5 whatever it was. */
    method Jump()
      requires Valid()
      modifies this`velocity
      ensures Valid()
      ensures velocity == JumpVelocity
    {
      velocity := JumpVelocity;
    }

    /** Whether Faby's box, at its node, overlaps either pipe of barrier b, at
        b's node; the pipes are tried in turn. */
    method Intersects(b: Barriers.Barrier) returns (hit: bool)
      ensures hit == HitsAny(BoxAt(nodeX, nodeY), b.Pipes())
    {
      var me := BoxAt(nodeX, nodeY);
      var pipes := b.Pipes();
      var k := 0;
      while k < |pipes|
        invariant 0 <= k <= |pipes|
        invariant forall j :: 0 <= j < k ==> !Overlap(me, pipes[j])
      {
        if Overlap(me, pipes[k]) {
          return true;
        }
        k := k + 1;
      }
      return false;
    }
  }
}
