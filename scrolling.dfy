/** The two wrap-around scrollers, the background and the base: a row of
    equal tiles that move left while playing, a tile that has left the screen
    jumping forward past the last one. */
module Scrolling {
  import opened Common

  class TileLayer {
    /** Tile width, number of tiles, movement per playing frame. */
    const width: int
    const count: nat
    const speed: int
    /** The distance a wrapped tile jumps forward: the row's total length. */
    const period: int
    /** Vertical translation of the layer's node. */
    const nodeY: int
    /** Horizontal offset of each tile within the layer. */
    const tiles: array<int>

    /** Playing frames so far, the distance scrolled in them, and how many
        times each tile has wrapped. */
    ghost var frames: nat
    ghost var scrolled: int
    ghost var wraps: seq<nat>

    /** The fixed dimensions of a layer: a tile moves at most its own width per
        frame, and the period is the length of the whole row. */
    ghost predicate Shape()
    {
      0 < speed <= width && 0 < count && period == width * count
    }

    /** Every offset stays within [-width, period - width], strictly below
        the top once the layer has moved, and tile i is always at
        width * i - scrolled plus whole periods. */
    ghost predicate Valid()
      reads this, tiles
    {
      && Shape()
      && tiles.Length == count && |wraps| == count
      && scrolled == speed * frames
      && forall i :: 0 <= i < count ==>
           && -width <= tiles[i] <= period - width
           && (frames > 0 ==> tiles[i] < period - width)
           && tiles[i] == width * i - scrolled + period * wraps[i]
    }

    /** The background: four 288-wide tiles at 0, 288, 576, 864, moving 1 per
        frame. */
    constructor Background()
      ensures Valid() && fresh(tiles)
      ensures width == 288 && count == 4 && speed == 1 && period == 1152 && nodeY == 0
      ensures frames == 0 && forall i :: 0 <= i < count ==> tiles[i] == i * width
    {
      width, count, speed, period, nodeY := 288, 4, 1, 288 * 4, 0;
      tiles := new int[4](i => i * 288);
      frames, scrolled, wraps := 0, 0, [0, 0, 0, 0];
    }

    /** The base: three 336-wide tiles at 0, 336, 672, moving 3 per frame, in
        a layer BaseDrop below the origin; the top of its BaseHeight-high
        sprite is then the ground Faby rests on. */
    constructor Base()
      ensures Valid() && fresh(tiles)
      ensures width == 336 && count == 3 && speed == 3 && period == 1008 && nodeY == -BaseDrop
      ensures frames == 0 && forall i :: 0 <= i < count ==> tiles[i] == i * width
    {
      width, count, speed, period, nodeY := 336, 3, 3, 336 * 3, -BaseDrop;
      tiles := new int[3](i => i * 336);
      frames, scrolled, wraps := 0, 0, [0, 0, 0];
    }

    /** Where a tile at offset x is after one playing frame. */
    function Wrap(x: int): (y: int)
    {
      var moved := x - speed;
      if moved < -width then moved + period else moved
    }

    /** One playing frame keeps a tile's offset within [-width, period - width)
        and moves it left by exactly the speed, up to a whole period. */
    lemma WrapStep(x: int)
      requires Shape()
      requires -width <= x <= period - width
      ensures -width <= Wrap(x) < period - width
      ensures Wrap(x) == x - speed || Wrap(x) == x - speed + period
    {
    }

    /** Moves every tile left by the speed while playing, wrapping a tile that
        went past -width forward by the row's length; otherwise does nothing. */
    method Tick(state: GameState)
      requires Valid()
      modifies this, tiles
      ensures Valid()
      ensures frames == old(frames) + (if state == Playing then 1 else 0)
      ensures forall i :: 0 <= i < count ==>
                tiles[i] == if state == Playing then Wrap(old(tiles[i])) else old(tiles[i])
    {
      if state == Playing {
        Shift();
        assert speed * (frames + 1) == speed * frames + speed;
        frames := frames + 1;
        scrolled := scrolled + speed;
      }
    }

    /** The tiles' part of a playing frame: each tile in turn moves left by
        the speed and wraps; each wrap is counted. */
    method Shift()
      requires Valid()
      modifies this`wraps, tiles
      ensures |wraps| == count
      ensures forall i :: 0 <= i < count ==>
                && tiles[i] == Wrap(old(tiles[i]))
                && -width <= tiles[i] < period - width
                && tiles[i] - period * wraps[i] == old(tiles[i]) - speed - period * old(wraps[i])
    {
      var k := 0;
      while k < tiles.Length
        invariant 0 <= k <= tiles.Length && |wraps| == count
        invariant forall i :: 0 <= i < k ==>
                    && tiles[i] == Wrap(old(tiles[i]))
                    && -width <= tiles[i] < period - width
                    && tiles[i] - period * wraps[i] == old(tiles[i]) - speed - period * old(wraps[i])
        invariant forall i :: k <= i < count ==> tiles[i] == old(tiles[i]) && wraps[i] == old(wraps[i])
      {
        WrapStep(tiles[k]);
        tiles[k] := tiles[k] - speed;
        if tiles[k] < -width {
          tiles[k] := tiles[k] + period;
          wraps := wraps[k := wraps[k] + 1];
        }
        k := k + 1;
      }
    }
  }

  /** Euclidean division is unique: a quotient and a remainder in [0, m) that
      rebuild x are x / m and x % m. */
  lemma DivModUnique(x: int, m: int, q: int, r: int)
    requires m > 0 && x == m * q + r && 0 <= r < m
    ensures x / m == q && x % m == r
  {
    var q', r' := x / m, x % m;
    assert m * (q' - q) == r - r' by {
      assert m * (q' - q) == m * q' - m * q;
    }
    if q' > q {
      MulAtLeast(m, q' - q);
    } else if q' < q {
      MulAtLeast(m, q - q');
    }
  }

  /** A positive number times a positive whole number is at least itself. */
  lemma {:induction false} MulAtLeast(m: int, k: int)
    requires m > 0 && k >= 1
    ensures m * k >= m
  {
    if k > 1 {
      MulAtLeast(m, k - 1);
      assert m * k == m * (k - 1) + m;
    }
  }

  /** Adding whole periods does not change a remainder. */
  lemma AddPeriods(a: int, k: int, m: int)
    requires m > 0
    ensures (a + m * k) % m == a % m
  {
    DivModUnique(a, m, a / m, a % m);
    assert a + m * k == m * (a / m + k) + a % m;
    DivModUnique(a + m * k, m, a / m + k, a % m);
  }

  /** After f playing frames, tile i of a layer is at width * i - speed * f
      modulo the row's length: the tiles keep their spacing for ever. */
  lemma LayerPhase(layer: TileLayer, i: nat)
    requires layer.Valid() && i < layer.count
    ensures layer.tiles[i] % layer.period == (layer.width * i - layer.speed * layer.frames) % layer.period
  {
    AddPeriods(layer.width * i - layer.speed * layer.frames, layer.wraps[i], layer.period);
  }

  /** Once a layer has moved, its offsets lie in [-width, period - width),
      one whole period, so the frame count fixes every tile exactly: tile i
      is at width * i - speed * f, brought into that range. */
  lemma LayerPosition(layer: TileLayer, i: nat)
    requires layer.Valid() && i < layer.count && layer.frames > 0
    ensures layer.tiles[i] == (layer.width * i - layer.speed * layer.frames + layer.width) % layer.period - layer.width
  {
    var w, p, k, t := layer.width, layer.period, layer.wraps[i], layer.tiles[i];
    var x := w * i - layer.scrolled + w;
    assert t == w * i - layer.scrolled + p * k;
    assert p * (-k) == -(p * k);
    DivModUnique(x, p, -k, t + w);
  }

  /** After f playing frames, background tile i is at 288 * i - f modulo
      1152, so the tiles stay 288 apart modulo the row's length; once moved,
      it is exactly there, brought into [-288, 864). */
  lemma BackgroundPhase(layer: TileLayer, i: nat)
    requires layer.Valid() && layer.width == 288 && layer.count == 4 && layer.speed == 1
    requires i < 4
    ensures layer.tiles[i] % 1152 == (288 * i - layer.frames) % 1152
    ensures layer.frames > 0 ==> layer.tiles[i] == (288 * (i + 1) - layer.frames) % 1152 - 288
  {
    LayerPhase(layer, i);
    if layer.frames > 0 {
      LayerPosition(layer, i);
    }
  }

  /** After f playing frames, base tile i is at 336 * i - 3 * f modulo 1008;
      once moved, it is exactly there, brought into [-336, 672). */
  lemma BasePhase(layer: TileLayer, i: nat)
    requires layer.Valid() && layer.width == 336 && layer.count == 3 && layer.speed == 3
    requires i < 3
    ensures layer.tiles[i] % 1008 == (336 * i - 3 * layer.frames) % 1008
    ensures layer.frames > 0 ==> layer.tiles[i] == (336 * (i + 1) - 3 * layer.frames) % 1008 - 336
  {
    LayerPhase(layer, i);
    if layer.frames > 0 {
      LayerPosition(layer, i);
    }
  }
}
