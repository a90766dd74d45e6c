/** One barrier: a lower and an upper pipe that scroll left together, with a
    gap between them whose height is fixed and whose height above the ground
    is drawn at random once. */
module Barriers {
  import opened Common

  /** Barrier 0 starts at x = 600 and each next one 200 further right. */
  const FirstX: int := 600
  const Pitch: int := 200
  /** Leftward movement per playing frame. */
  const Speed: int := 3
  /** The number of barriers the game creates. */
  const FieldSize: nat := 100

  /** Pipe sprite size; the upper pipe sits 420 above the lower one, which
      leaves a 100-unit gap. */
  const PipeWidth: real := 52.0
  const PipeHeight: real := 320.0
  const UpperPipeOffset: real := PipeHeight + 100.0

  /** The x position a barrier is created at, from its index. */
  function InitialX(index: nat): (x: int)
    ensures x >= FirstX
  {
    FirstX + Pitch * index
  }

  /** The y position of the lower pipe: the gap's middle (370 above the lower
      pipe's origin) is put at the screen's vertical centre, then moved by
      up to 100 either way according to the random draw in [0, 1). */
  function InitialY(draw: real): (y: real)
    requires 0.0 <= draw < 1.0
    ensures (CenterY - 470) as real <= y < (CenterY - 270) as real
  {
    (CenterY - 370) as real + (draw - 0.5) * 200.0
  }

  /** The two pipe boxes of a barrier whose node is at (x, y). */
  function PipesAt(x: real, y: real): (pipes: seq<Box>)
    ensures |pipes| == 2
    ensures pipes[0].x == pipes[1].x == x
    ensures pipes[1].y - (pipes[0].y + pipes[0].h) == 100.0
  {
    [Box(x, y, PipeWidth, PipeHeight), Box(x, y + UpperPipeOffset, PipeWidth, PipeHeight)]
  }

  /** The x positions of the whole field after f playing frames. */
  function FieldXs(f: nat): (xs: seq<int>)
    ensures |xs| == FieldSize
  {
    seq(FieldSize, (i: int) requires 0 <= i => InitialX(i) - Speed * f)
  }

  /** However far the field has scrolled, neighbouring barriers stay exactly
      200 apart, so the field stays sorted by index. */
  lemma FieldSpacing(f: nat, i: nat, j: nat)
    requires i < j < FieldSize
    ensures FieldXs(f)[j] - FieldXs(f)[i] == Pitch * (j - i)
    ensures FieldXs(f)[i] < FieldXs(f)[j]
  {
  }

  class Barrier {
    /** The index the barrier was created with (the source keeps it only in
        the node's name). */
    ghost const index: nat
    /** Current x position; moves only while playing. */
    var xPosition: int
    /** y position of the lower pipe; fixed at construction. */
    const yPosition: real
    /** Translation of the node holding both pipes, refreshed on every tick. */
    var nodeX: int
    var nodeY: real

    constructor (index: nat, draw: real)
      requires 0.0 <= draw < 1.0
      ensures this.index == index
      ensures xPosition == InitialX(index) && yPosition == InitialY(draw)
      ensures nodeX == 0 && nodeY == 0.0
    {
      this.index := index;
      nodeX, nodeY := 0, 0.0;
      yPosition := InitialY(draw);
      xPosition := InitialX(index);
    }

    /** The lower and the upper pipe where the renderer and the collision
        check see them. */
    function Pipes(): (pipes: seq<Box>)
      reads this
    {
      PipesAt(nodeX as real, nodeY)
    }

    /** Moves the barrier 3 to the left while playing, then places its node. */
    method Tick(state: GameState)
      modifies this
      ensures xPosition == old(xPosition) - (if state == Playing then Speed else 0)
      ensures nodeX == xPosition && nodeY == yPosition
    {
      if state == Playing {
        xPosition := xPosition - Speed;
      }
      nodeX, nodeY := xPosition, yPosition;
    }
  }
}
