/** The game as a whole: the state machine, the per-frame update in its
    fixed order, the jump input, the score and the screens shown. */
module Game {
  import opened Common
  import opened Barriers
  import opened Player
  import opened Scoring
  import opened Scrolling

  /** A barrier scores once its right edge has passed the screen's centre:
      its x is below CenterX minus the pipe width 52. */
  const ScoreLine: int := CenterX - 52

  /** The number of positions in xs below the score line. */
  function CountPassed(xs: seq<int>): (c: nat)
    ensures c <= |xs|
  {
    if xs == [] then 0
    else CountPassed(xs[..|xs| - 1]) + (if xs[|xs| - 1] < ScoreLine then 1 else 0)
  }

  /** The indices of the positions below the score line. */
  ghost function PassedIndices(xs: seq<int>): (passed: set<int>)
  {
    set i | 0 <= i < |xs| && xs[i] < ScoreLine
  }

  /** The count is the size of the set of passed barriers. */
  lemma {:induction false} CountPassedIsCardinality(xs: seq<int>)
    ensures CountPassed(xs) == |PassedIndices(xs)|
  {
    if xs != [] {
      var n := |xs| - 1;
      CountPassedIsCardinality(xs[..n]);
      if xs[n] < ScoreLine {
        assert PassedIndices(xs) == PassedIndices(xs[..n]) + {n};
      } else {
        assert PassedIndices(xs) == PassedIndices(xs[..n]);
      }
    }
  }

  /** Moving positions left never lowers the count. */
  lemma {:induction false} CountPassedAntitone(xs: seq<int>, ys: seq<int>)
    requires |xs| == |ys|
    requires forall i :: 0 <= i < |xs| ==> ys[i] <= xs[i]
    ensures CountPassed(xs) <= CountPassed(ys)
  {
    if xs != [] {
      var n := |xs| - 1;
      CountPassedAntitone(xs[..n], ys[..n]);
    }
  }

  /** How many barriers of an unbounded field have passed the score line
      after f playing frames: those with 600 + 200 * i - 3 * f < 268. */
  function PassedBy(f: nat): (n: nat)
  {
    if 3 * f <= FirstX - ScoreLine then 0 else (3 * f - (FirstX - ScoreLine) - 1) / Pitch + 1
  }

  /** Barrier i has passed the score line after f frames exactly when i is
      below PassedBy(f). */
  lemma PassedByMeaning(f: nat, i: nat)
    ensures InitialX(i) - Speed * f < ScoreLine <==> i < PassedBy(f)
  {
  }

  /** The first n barriers of the field after f frames contain
      min(n, PassedBy(f)) passed ones. */
  lemma {:induction false} CountPassedPrefix(f: nat, n: nat)
    requires n <= FieldSize
    ensures CountPassed(FieldXs(f)[..n]) == if n < PassedBy(f) then n else PassedBy(f)
  {
    if n > 0 {
      assert FieldXs(f)[..n][..n - 1] == FieldXs(f)[..n - 1];
      CountPassedPrefix(f, n - 1);
      PassedByMeaning(f, n - 1);
    }
  }

  /** The score after f playing frames in closed form: the barriers past
      the line, of which there are at most the field's 100. */
  function ScoreAt(f: nat): (score: nat)
  {
    if PassedBy(f) < FieldSize then PassedBy(f) else FieldSize
  }

  /** Counting the field barrier by barrier after f frames gives the closed
      form. */
  lemma ScoreAfter(f: nat)
    ensures CountPassed(FieldXs(f)) == ScoreAt(f)
  {
    CountPassedPrefix(f, FieldSize);
    assert FieldXs(f)[..FieldSize] == FieldXs(f);
  }

  /** The score never decreases and grows by at most one per playing frame,
      so each barrier crossing the line raises it exactly once. */
  lemma ScoreStep(f: nat)
    ensures ScoreAt(f) <= ScoreAt(f + 1) <= ScoreAt(f) + 1
  {
  }

  /** The score is 0 until frame 110 and becomes 1 on frame 111, when
      barrier 0 (x = 600 - 333 = 267) first lies below 268. */
  lemma FirstPoint()
    ensures CountPassed(FieldXs(110)) == 0 && CountPassed(FieldXs(111)) == 1
    ensures FieldXs(110)[0] == 270 && FieldXs(111)[0] == 267
  {
    ScoreAfter(110);
    ScoreAfter(111);
  }

  /** Scores over frames f <= g never decrease. */
  lemma ScoreMonotone(f: nat, g: nat)
    requires f <= g
    ensures CountPassed(FieldXs(f)) <= CountPassed(FieldXs(g))
  {
    CountPassedAntitone(FieldXs(f), FieldXs(g));
  }

  /** Sounds played during one frame, by name. */
  datatype Sounds = Sounds(hit: nat, die: nat, score: nat)

  class FlappyBird {
    /** The game state every component consults. */
    var state: GameState
    /** The score seen on the previous frame. */
    var lastScore: nat
    /** Whether the start and the game-over screens are shown. */
    var startScreenShown: bool
    var gameOverShown: bool

    const faby: Faby
    const barriers: array<Barrier>
    const background: TileLayer
    const base: TileLayer
    const score: ScoreDisplay

    /** Frames in which the field and the layers scrolled. */
    ghost var frames: nat
    /** The barriers, as a set: what the field's functions read and its
        tick modifies. */
    ghost const fieldSet: set<Barrier>

    /** The moving objects: Faby, the barriers, the two layers and their
        tiles. */
    ghost function Scene(): (objs: set<object>)
    {
      {faby, background, background.tiles, base, base.tiles} + fieldSet
    }

    /** The objects a frame may change: the scene and the score display's
        digits. */
    ghost function Repr(): (objs: set<object>)
    {
      Scene() + {score, score.tens, score.ones}
    }

    /** Every barrier of the array is in the field set. */
    ghost predicate Owned()
      reads barriers
    {
      forall i :: 0 <= i < barriers.Length ==> barriers[i] in fieldSet
    }

    /** The fixed layout of the game: which objects it owns, that they are
        distinct, the dimensions of the layers and the barriers' gaps. None of
        it changes after construction. */
    ghost predicate Structure()
      reads barriers
    {
      && barriers.Length == FieldSize && Owned()
      && (forall i :: 0 <= i < FieldSize ==> barriers[i].index == i)
      && background != base && background.tiles != base.tiles && score.Valid()
      && background.width == 288 && background.count == 4 && background.speed == 1
      && base.width == 336 && base.count == 3 && base.speed == 3
      && (forall i :: 0 <= i < FieldSize ==>
            (CenterY - 470) as real <= barriers[i].yPosition < (CenterY - 270) as real)
    }

    /** The layout, plus: the layers and the field have scrolled the same
        number of frames. */
    ghost predicate Scrolled()
      reads this`frames, barriers, Scene()
    {
      && Structure()
      && faby.Valid() && background.Valid() && base.Valid()
      && background.frames == frames && base.frames == frames
      && FieldAt(frames)
    }

    /** The scene is consistent, and before the game starts nothing has
        moved. */
    ghost predicate Consistent()
      reads this, barriers, Scene()
    {
      && Scrolled()
      && (state == Ready ==> frames == 0 && faby.CurrentMotion() == Motion(0.0, CenterY as real))
    }

    /** Between frames, also: the last score and the digits shown are the
        number of barriers past the score line. */
    ghost predicate Valid()
      reads this, barriers, Repr()
    {
      && Consistent()
      && lastScore == ScoreAt(frames)
      && score.Shows(lastScore)
    }

    /** Every barrier is where f playing frames have moved it from its
        starting place: 600 + 200 * i - 3 * f. */
    ghost predicate FieldAt(f: int)
      requires Owned()
      reads barriers, fieldSet
    {
      forall i :: 0 <= i < barriers.Length ==> barriers[i].xPosition == InitialX(i) - Speed * f
    }

    /** The barriers' x positions, in index order. */
    ghost function Xs(): (xs: seq<int>)
      requires Owned()
      reads barriers, fieldSet
      ensures |xs| == barriers.Length
      ensures forall i :: 0 <= i < barriers.Length ==> xs[i] == barriers[i].xPosition
    {
      seq(barriers.Length, i requires 0 <= i < barriers.Length && barriers[i] in fieldSet
                             reads barriers, fieldSet
                             => barriers[i].xPosition)
    }

    /** Faby's box, at its node, overlaps a pipe of barrier i at its node. */
    ghost predicate HitsBarrier(i: int)
      requires Owned()
      reads barriers, faby, fieldSet
    {
      0 <= i < barriers.Length && HitsAny(BoxAt(faby.nodeX, faby.nodeY), barriers[i].Pipes())
    }

    /** Faby overlaps one of the first n barriers. */
    ghost predicate HitsBefore(n: int)
      requires Owned()
      reads barriers, faby, fieldSet
    {
      exists i :: 0 <= i < n && HitsBarrier(i)
    }

    /** Faby overlaps some barrier. */
    ghost predicate Crash()
      requires Owned()
      reads barriers, faby, fieldSet
    {
      HitsBefore(barriers.Length)
    }

    /** Builds the game: Faby at rest in the middle of the screen, barrier i at
        x = 600 + 200 * i with a gap placed by draws[i], the two scrolling
        layers, a score of 0; the state is Ready. */
    constructor (draws: seq<real>)
      requires |draws| == FieldSize
      requires forall i :: 0 <= i < |draws| ==> 0.0 <= draws[i] < 1.0
      ensures Valid() && fresh(barriers)
      ensures state == Ready && lastScore == 0 && frames == 0
      ensures startScreenShown && gameOverShown
      ensures faby.nodeX == (CenterX as real) - Width / 2.0 && faby.nodeY == CenterY as real
      ensures faby.flap == AllShown
      ensures forall i :: 0 <= i < FieldSize ==>
                barriers[i].xPosition == InitialX(i) && barriers[i].yPosition == InitialY(draws[i])
      ensures forall i :: 0 <= i < FieldSize ==> barriers[i].nodeX == 0 && barriers[i].nodeY == 0.0
      ensures background.nodeY == 0 && base.nodeY == -BaseDrop
      ensures fresh(faby) && fresh(background) && fresh(background.tiles) && fresh(base) && fresh(base.tiles)
      ensures fresh(score) && fresh(score.tens) && fresh(score.ones) && fresh(fieldSet)
    {
      var f := NewFaby();
      var bg, bb, sc := NewScenery();
      var field := NewField(draws);
      faby, background, base, score, barriers := f, bg, bb, sc, field;
      state := Ready;
      lastScore := 0;
      startScreenShown, gameOverShown := true, true;
      frames := 0;
      fieldSet := set i | 0 <= i < FieldSize :: field[i];
      new;
    }

    /** Creates Faby and places its node in the middle of the screen, moved
        left by half its width. */
    static method NewFaby() returns (f: Faby)
      ensures fresh(f) && f.Valid()
      ensures f.CurrentMotion() == Motion(0.0, CenterY as real) && f.flap == AllShown
      ensures f.nodeX == (CenterX as real) - Width / 2.0 && f.nodeY == CenterY as real
    {
      f := new Faby();
      f.nodeX, f.nodeY := (CenterX as real) - Width / 2.0, CenterY as real;
    }

    /** Creates the background, the base and the score display. */
    static method NewScenery() returns (bg: TileLayer, bb: TileLayer, sc: ScoreDisplay)
      ensures fresh(bg) && fresh(bg.tiles) && fresh(bb) && fresh(bb.tiles)
      ensures fresh(sc) && fresh(sc.tens) && fresh(sc.ones)
      ensures bg != bb && bg.tiles != bb.tiles
      ensures bg.Valid() && bg.width == 288 && bg.count == 4 && bg.speed == 1 && bg.frames == 0
      ensures bb.Valid() && bb.width == 336 && bb.count == 3 && bb.speed == 3 && bb.frames == 0
      ensures bg.nodeY == 0 && bb.nodeY == -BaseDrop
      ensures sc.Valid() && sc.Shows(0)
    {
      bg := new TileLayer.Background();
      bb := new TileLayer.Base();
      sc := new ScoreDisplay();
    }

    /** Creates barrier i, for each index in turn, with its own draw. */
    static method NewField(draws: seq<real>) returns (field: array<Barrier>)
      requires |draws| == FieldSize
      requires forall i :: 0 <= i < |draws| ==> 0.0 <= draws[i] < 1.0
      ensures fresh(field) && field.Length == FieldSize
      ensures forall i :: 0 <= i < FieldSize ==> fresh(field[i])
      ensures forall i :: 0 <= i < FieldSize ==> field[i].index == i
      ensures forall i :: 0 <= i < FieldSize ==>
                field[i].xPosition == InitialX(i) && field[i].yPosition == InitialY(draws[i])
      ensures forall i :: 0 <= i < FieldSize ==>
                (CenterY - 470) as real <= field[i].yPosition < (CenterY - 270) as real
      ensures forall i :: 0 <= i < FieldSize ==> field[i].nodeX == 0 && field[i].nodeY == 0.0
    {
      var bs: seq<Barrier> := [];
      for i := 0 to FieldSize
        invariant |bs| == i
        invariant forall j :: 0 <= j < i ==> fresh(bs[j])
        invariant forall j :: 0 <= j < i ==> bs[j].index == j
        invariant forall j :: 0 <= j < i ==>
                    bs[j].xPosition == InitialX(j) && bs[j].yPosition == InitialY(draws[j])
        invariant forall j :: 0 <= j < i ==> bs[j].nodeX == 0 && bs[j].nodeY == 0.0
      {
        var b := new Barrier(i, draws[i]);
        bs := bs + [b];
      }
      field := new Barrier[FieldSize](i requires 0 <= i < FieldSize => bs[i]);
    }

    /** score(): counts, barrier by barrier, those past the score line. */
    method Score() returns (count: nat)
      requires Owned()
      ensures count == CountPassed(Xs())
    {
      count := 0;
      var i := 0;
      while i < barriers.Length
        invariant 0 <= i <= barriers.Length
        invariant count == CountPassed(Xs()[..i])
      {
        assert Xs()[..i + 1][..i] == Xs()[..i];
        if barriers[i].xPosition < ScoreLine {
          count := count + 1;
        }
        i := i + 1;
      }
      assert Xs()[..i] == Xs();
    }

    /** Ticks every barrier in index order. */
    method TickBarriers()
      requires barriers.Length == FieldSize && Owned()
      requires forall i :: 0 <= i < FieldSize ==> barriers[i].index == i
      modifies fieldSet
      ensures forall i :: 0 <= i < FieldSize ==>
                && barriers[i].xPosition == old(barriers[i].xPosition) - (if state == Playing then Speed else 0)
                && barriers[i].nodeX == barriers[i].xPosition && barriers[i].nodeY == barriers[i].yPosition
    {
      for i := 0 to FieldSize
        invariant forall j :: 0 <= j < i ==>
                    && barriers[j].xPosition == old(barriers[j].xPosition) - (if state == Playing then Speed else 0)
                    && barriers[j].nodeX == barriers[j].xPosition && barriers[j].nodeY == barriers[j].yPosition
        invariant forall j :: i <= j < FieldSize ==> barriers[j].xPosition == old(barriers[j].xPosition)
      {
        barriers[i].Tick(state);
      }
    }

    /** The collision pass: every barrier Faby overlaps kills it, and the
        first such hit while not yet dead plays "hit" and "die" once. */
    method CheckCollisions() returns (hits: nat)
      requires Owned()
      modifies this`state
      ensures state == if old(state) == Dead || Crash() then Dead else old(state)
      ensures hits == if old(state) != Dead && Crash() then 1 else 0
    {
      hits := 0;
      var i := 0;
      while i < barriers.Length
        invariant 0 <= i <= barriers.Length
        invariant state == if old(state) == Dead || HitsBefore(i) then Dead else old(state)
        invariant hits == if old(state) != Dead && HitsBefore(i) then 1 else 0
      {
        var hit := faby.Intersects(barriers[i]);
        assert hit == HitsBarrier(i);
        assert HitsBefore(i + 1) <==> HitsBefore(i) || HitsBarrier(i);
        if hit && state != Dead {
          hits := hits + 1;
          state := Dead;
        }
        i := i + 1;
      }
    }

    /** The scenery's part of a frame: every barrier, then the background and
        the base tick; all of them move only while playing, and then by one
        frame of the field. */
    method Scroll()
      requires Structure()
      requires background.Valid() && base.Valid()
      requires background.frames == frames && base.frames == frames
      requires FieldAt(frames)
      modifies this`frames, background, background.tiles, base, base.tiles
      modifies fieldSet
      ensures background.Valid() && base.Valid()
      ensures frames == old(frames) + (if state == Playing then 1 else 0)
      ensures background.frames == frames && base.frames == frames
      ensures FieldAt(frames)
      ensures forall i :: 0 <= i < FieldSize ==>
                barriers[i].nodeX == barriers[i].xPosition && barriers[i].nodeY == barriers[i].yPosition
    {
      TickBarriers();
      background.Tick(state);
      base.Tick(state);
      if state == Playing {
        frames := frames + 1;
      }
    }

    /** The moving part of a frame: Faby ticks and what it reports becomes the
        game's state; then the barriers, the background and the base tick in
        that state. */
    method TickWorld()
      requires Consistent()
      modifies this`state, this`frames, faby, background, background.tiles, base, base.tiles
      modifies fieldSet
      ensures Consistent()
      ensures state == StateAfter(old(state), old(faby.CurrentMotion()))
      ensures faby.CurrentMotion() == Advance(old(state), old(faby.CurrentMotion()))
      ensures faby.flap == NextFlap(old(faby.velocity), old(faby.flap)) && faby.flap != AllShown
      ensures faby.nodeX == ScreenX && faby.nodeY == faby.position
      ensures frames == old(frames) + (if state == Playing then 1 else 0)
      ensures forall i :: 0 <= i < FieldSize ==>
                barriers[i].nodeX == barriers[i].xPosition && barriers[i].nodeY == barriers[i].yPosition
    {
      if state == Ready {
        PhysicsStep(state, faby.CurrentMotion());
      }
      state := faby.Tick(state);
      Scroll();
    }

    /** The judging part of a frame: the score display ticks, the collision
        pass runs, the score sound plays when the score rose, the last score is
        written down and the screens follow the state. */
    method Referee() returns (sounds: Sounds)
      requires Consistent()
      requires faby.nodeX == ScreenX
      requires forall i :: 0 <= i < FieldSize ==> barriers[i].nodeX == barriers[i].xPosition
      modifies this`state, this`lastScore, this`gameOverShown, this`startScreenShown
      modifies score.tens, score.ones
      ensures Valid()
      ensures state == (if old(state) == Dead || Crash() then Dead else old(state))
      ensures sounds.hit == sounds.die == (if old(state) != Dead && Crash() then 1 else 0)
      ensures sounds.score == if lastScore > old(lastScore) then 1 else 0
      ensures gameOverShown == (state == Dead) && startScreenShown == (state == Ready)
      ensures old(state) == Ready ==> state == Ready && sounds.hit == 0
    {
      var current := ShowScore();
      sounds := Judge(current);
    }

    /** What follows the score display's tick: the collision pass, the score
        sound when the score rose, the last score written down, and the
        screens following the state. */
    method Judge(current: nat) returns (sounds: Sounds)
      requires Consistent()
      requires faby.nodeX == ScreenX
      requires forall i :: 0 <= i < FieldSize ==> barriers[i].nodeX == barriers[i].xPosition
      requires current == ScoreAt(frames) && score.Shows(current)
      modifies this`state, this`lastScore, this`gameOverShown, this`startScreenShown
      ensures Valid()
      ensures state == (if old(state) == Dead || Crash() then Dead else old(state))
      ensures sounds.hit == sounds.die == (if old(state) != Dead && Crash() then 1 else 0)
      ensures sounds.score == if current > old(lastScore) then 1 else 0
      ensures lastScore == current
      ensures gameOverShown == (state == Dead) && startScreenShown == (state == Ready)
      ensures old(state) == Ready ==> state == Ready && sounds.hit == 0
    {
      if state == Ready {
        NoCrashBeforeStart();
      }
      var hits := CheckCollisions();
      sounds := Sounds(hits, hits, if current > lastScore then 1 else 0);
      lastScore, gameOverShown, startScreenShown := current, state == Dead, state == Ready;
    }

    /** One frame, in the source's order: Faby, every barrier, the background,
        the base and the score display tick; then the collision pass, the score
        sound and the screens. s1 is the state Faby's tick leaves. */
    method Update() returns (sounds: Sounds, ghost s1: GameState)
      requires Valid()
      modifies this, Repr()
      ensures Valid()
      ensures s1 == StateAfter(old(state), old(faby.CurrentMotion()))
      ensures faby.CurrentMotion() == Advance(old(state), old(faby.CurrentMotion()))
      ensures faby.flap == NextFlap(old(faby.velocity), old(faby.flap)) && faby.flap != AllShown
      ensures faby.nodeX == ScreenX && faby.nodeY == faby.position
      ensures frames == old(frames) + (if s1 == Playing then 1 else 0)
      ensures forall i :: 0 <= i < FieldSize ==>
                barriers[i].nodeX == barriers[i].xPosition && barriers[i].nodeY == barriers[i].yPosition
      ensures state == (if s1 == Dead || Crash() then Dead else s1)
      ensures sounds.hit == sounds.die == (if s1 != Dead && Crash() then 1 else 0)
      ensures sounds.score == if lastScore > old(lastScore) then 1 else 0
      ensures old(lastScore) <= lastScore <= old(lastScore) + 1
      ensures gameOverShown == (state == Dead) && startScreenShown == (state == Ready)
      ensures old(state) == Dead ==> state == Dead
      ensures old(state) == Ready ==> state == Ready && sounds == Sounds(0, 0, 0)
    {
      ghost var f0 := frames;
      TickWorld();
      s1 := state;
      sounds := Referee();
      ScoreStep(f0);
    }

    /** The score display's tick: it shows score(), the count of barriers past
        the line, which is the closed form for the frames scrolled. */
    method ShowScore() returns (current: nat)
      requires Structure() && FieldAt(frames)
      modifies score.tens, score.ones
      ensures current == ScoreAt(frames) && score.Shows(current)
    {
      current := Score();
      assert Xs() == FieldXs(frames);
      ScoreAfter(frames);
      score.Tick(current);
    }

    /** Before the game starts the field has not moved, so every barrier is
        at least 600 right of the origin while Faby's box ends at 336: no
        barrier can be hit. */
    lemma NoCrashBeforeStart()
      requires Structure() && FieldAt(0)
      requires faby.nodeX == ScreenX
      requires forall i :: 0 <= i < FieldSize ==> barriers[i].nodeX == barriers[i].xPosition
      ensures !Crash()
    {
      forall i | 0 <= i < FieldSize
        ensures !HitsBarrier(i)
      {
        ClearOfColumnIsSafe(faby.nodeX, faby.nodeY, barriers[i].nodeX as real, barriers[i].nodeY);
      }
    }

    /** The jump input: a press in Ready starts the game, and a press while
        playing (including the one that just started it) makes Faby jump.
        Releases, other actions and presses in Dead do nothing. */
    method OnAction(name: string, isPressed: bool)
      requires Valid()
      modifies this`state, faby`velocity
      ensures Valid()
      ensures var press := name == "Jump" && isPressed;
              && state == (if press && old(state) == Ready then Playing else old(state))
              && faby.velocity == (if press && state == Playing then JumpVelocity else old(faby.velocity))
    {
      if name == "Jump" && isPressed {
        if state == Ready {
          state := Playing;
        }
        if state == Playing {
          faby.Jump();
        }
      }
    }
  }
}
