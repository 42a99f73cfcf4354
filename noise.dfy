/** The fractal height-field generator Noise.GenerateNoiseMap of
    Assets/TerrainGenerator/Scripts/Noise.cs.

    Heights are real numbers. The smooth-noise primitive Mathf.PerlinNoise is
    a parameter known only to return values in [0, 1], and the draws of the
    seeded System.Random are an input sequence, two per octave. */
module Noise {
  import opened Settings

  /** float.MaxValue, the sentinel the running minimum starts from. */
  const FLOAT_MAX: real := 340282346638528859811704183484516925440.0

  /** float.MinValue, the sentinel the running maximum starts from. */
  const FLOAT_MIN: real := -FLOAT_MAX

  /** int.MaxValue, the upper bound of the Global-mode clamp. */
  const INT_MAX: real := 2147483647.0

  /** One result of System.Random.Next(-100000, 100000). */
  type Draw = r: int | -100000 <= r < 100000

  /** Mathf.PerlinNoise: any function with results in [0, 1]. */
  type PerlinNoise = f: (real, real) -> real | forall u, v :: 0.0 <= f(u, v) <= 1.0
    witness (u: real, v: real) => 0.5

  // ---------------------------------------------------------------------
  // Unity's Mathf helpers used by the generator

  /** Mathf.Clamp on floats. */
  function Clamp(value: real, lo: real, hi: real): (r: real)
    requires lo <= hi
    ensures lo <= r <= hi
    ensures lo <= value <= hi ==> r == value
    ensures value < lo ==> r == lo
    ensures value > hi ==> r == hi
  {
    if value < lo then lo else if value > hi then hi else value
  }

  /** Mathf.InverseLerp: where `value` lies between `a` and `b`, clamped to
      [0, 1]; 0 when the interval is a single point. Between `a` and `b` it
      undoes linear interpolation: a + r * (b - a) == value. */
  function InverseLerp(a: real, b: real, value: real): (r: real)
    ensures 0.0 <= r <= 1.0
    ensures a == b ==> r == 0.0
    ensures a < b && a <= value <= b ==> a + r * (b - a) == value
    ensures a < b && value <= a ==> r == 0.0
    ensures a < b && value >= b ==> r == 1.0
  {
    if a != b then
      DivisionFacts(value - a, b - a);
      Clamp01((value - a) / (b - a))
    else 0.0
  }

  lemma DivisionFacts(n: real, d: real)
    requires d != 0.0
    ensures (n / d) * d == n
    ensures d > 0.0 && n <= 0.0 ==> n / d <= 0.0
    ensures d > 0.0 && n >= d ==> n / d >= 1.0
    ensures d > 0.0 && 0.0 <= n <= d ==> 0.0 <= n / d <= 1.0
  {
    if d > 0.0 {
      if n <= 0.0 { DivLe(n, d, 0.0); }
      if n <= d { DivLe(n, d, 1.0); }
      if n >= 0.0 { DivGe(n, d, 0.0); }
      if n >= d { DivGe(n, d, 1.0); }
    }
  }

  lemma DivLe(n: real, d: real, k: real)
    requires d > 0.0 && n <= k * d
    ensures n / d <= k
  {
    assert k - n / d == (k * d - n) / d;
  }

  lemma DivGe(n: real, d: real, k: real)
    requires d > 0.0 && n >= k * d
    ensures n / d >= k
  {
    assert n / d - k == (n - k * d) / d;
  }

  // ---------------------------------------------------------------------
  // Amplitudes, frequencies and maxPossibleHeight

  /** `b` multiplied into 1, `n` times: the amplitude (or frequency) of octave `n`. */
  function Pow(b: real, n: nat): real {
    if n == 0 then 1.0 else Pow(b, n - 1) * b
  }

  /** Amplitudes of a decaying sequence stay in [0, 1]. */
  lemma {:induction false} PowUnit(b: real, n: nat)
    requires 0.0 <= b <= 1.0
    ensures 0.0 <= Pow(b, n) <= 1.0
  {
    if n > 0 {
      PowUnit(b, n - 1);
      ProductUnit(Pow(b, n - 1), b);
    }
  }

  lemma ProductUnit(a: real, b: real)
    requires 0.0 <= a <= 1.0 && 0.0 <= b <= 1.0
    ensures 0.0 <= a * b <= a
  {
    assert a * (1.0 - b) >= 0.0;
  }

  /** The sum of the amplitudes of the first `octaves` octaves,
      1 + p + p^2 + ...: the value lines 32-44 accumulate. */
  function MaxPossibleHeight(persistance: real, octaves: nat): real {
    if octaves == 0 then 0.0
    else MaxPossibleHeight(persistance, octaves - 1) + Pow(persistance, octaves - 1)
  }

  /** Under valid settings maxPossibleHeight lies in [1, octaves], so the
      Global-mode divisor is never zero. */
  lemma {:induction false} MaxPossibleHeightBounds(persistance: real, octaves: nat)
    requires 0.0 <= persistance <= 1.0 && octaves >= 1
    ensures 1.0 <= MaxPossibleHeight(persistance, octaves) <= octaves as real
  {
    PowUnit(persistance, octaves - 1);
    if octaves > 1 {
      MaxPossibleHeightBounds(persistance, octaves - 1);
    }
  }

  /** The closed form of the geometric sum: (1 - p) * maxPossibleHeight == 1 - p^n. */
  lemma {:induction false} MaxPossibleHeightClosedForm(persistance: real, octaves: nat)
    ensures (1.0 - persistance) * MaxPossibleHeight(persistance, octaves)
         == 1.0 - Pow(persistance, octaves)
  {
    if octaves > 0 {
      MaxPossibleHeightClosedForm(persistance, octaves - 1);
      var m := MaxPossibleHeight(persistance, octaves - 1);
      var a := Pow(persistance, octaves - 1);
      calc {
        (1.0 - persistance) * MaxPossibleHeight(persistance, octaves);
        (1.0 - persistance) * m + (1.0 - persistance) * a;
        1.0 - a + a - a * persistance;
        1.0 - Pow(persistance, octaves);
      }
    }
  }

  // ---------------------------------------------------------------------
  // Octave offsets (lines 36-40)

  /** The offset of octave `i`: the X draw is added to `offset.x` and the
      sample centre, the Y draw has `offset.y` and the sample centre
      subtracted from it. */
  function OctaveOffset(draws: seq<Draw>, offset: Vector2, sampleCentre: Vector2, i: nat): Vector2
    requires 2 * i + 1 < |draws|
  {
    Vector2(draws[2 * i] as real + offset.x + sampleCentre.x,
            draws[2 * i + 1] as real - offset.y - sampleCentre.y)
  }

  /** The offsets of the first `octaves` octaves. */
  function OctaveOffsetSeq(draws: seq<Draw>, offset: Vector2, sampleCentre: Vector2, octaves: nat)
    : (r: seq<Vector2>)
    requires 2 * octaves <= |draws|
    ensures |r| == octaves
    ensures forall i :: 0 <= i < octaves ==> r[i] == OctaveOffset(draws, offset, sampleCentre, i)
  {
    seq(octaves, i requires 0 <= i < octaves => OctaveOffset(draws, offset, sampleCentre, i))
  }

  /** Lines 30-44: draws the octave offsets and sums the amplitudes. */
  method OctaveOffsets(s: SettingsValue, sampleCentre: Vector2, draws: seq<Draw>)
    returns (octaveOffsets: array<Vector2>, maxPossibleHeight: real)
    requires s.octaves >= 0 && 2 * s.octaves <= |draws|
    ensures octaveOffsets.Length == s.octaves
    ensures forall i :: 0 <= i < s.octaves ==>
      octaveOffsets[i].x == draws[2 * i] as real + s.offset.x + sampleCentre.x &&
      octaveOffsets[i].y == draws[2 * i + 1] as real - s.offset.y - sampleCentre.y
    ensures octaveOffsets[..] == OctaveOffsetSeq(draws, s.offset, sampleCentre, s.octaves)
    ensures maxPossibleHeight == MaxPossibleHeight(s.persistance, s.octaves)
  {
    octaveOffsets := new Vector2[s.octaves];
    maxPossibleHeight := 0.0;
    var amplitude := 1.0;
    for i := 0 to s.octaves
      invariant amplitude == Pow(s.persistance, i)
      invariant maxPossibleHeight == MaxPossibleHeight(s.persistance, i)
      invariant forall k :: 0 <= k < i ==>
        octaveOffsets[k] == OctaveOffset(draws, s.offset, sampleCentre, k)
    {
      var offsetX := draws[2 * i] as real + s.offset.x + sampleCentre.x;
      var offsetY := draws[2 * i + 1] as real - s.offset.y - sampleCentre.y;
      octaveOffsets[i] := Vector2(offsetX, offsetY);
      maxPossibleHeight := maxPossibleHeight + amplitude;
      amplitude := amplitude * s.persistance;
    }
  }

  // ---------------------------------------------------------------------
  // The raw height of one cell (lines 56-70)

  /** What every cell of one call shares: the settings, the octave offsets and
      the centre of the map. */
  datatype Sampling = Sampling(
    settings: SettingsValue,
    octaveOffsets: seq<Vector2>,
    halfWidth: real,
    halfHeight: real,
    perlin: PerlinNoise)

  predicate WellFormed(c: Sampling) {
    IsValid(c.settings) && |c.octaveOffsets| == c.settings.octaves
  }

  /** The sampling of one call: the offsets are drawn as by OctaveOffsets and
      the half sizes use integer division, as on lines 49-50. */
  function SamplingFor(s: SettingsValue, mapWidth: nat, mapHeight: nat, sampleCentre: Vector2,
                       draws: seq<Draw>, perlin: PerlinNoise): (c: Sampling)
    requires IsValid(s) && 2 * s.octaves <= |draws|
    ensures WellFormed(c)
  {
    Sampling(s, OctaveOffsetSeq(draws, s.offset, sampleCentre, s.octaves),
             (mapWidth / 2) as real, (mapHeight / 2) as real, perlin)
  }

  /** The coordinate at which octave sampling happens (lines 62-63). */
  function SampleCoord(cell: int, half: real, octaveOffset: real, scale: real, frequency: real): real
    requires scale != 0.0
  {
    (cell as real - half + octaveOffset) / scale * frequency
  }

  /** The contribution of octave `i` to cell (x, y) before weighting: the
      primitive's value rescaled from [0, 1] to [-1, 1] (line 65). */
  function PerlinValue(c: Sampling, x: int, y: int, i: nat): (r: real)
    requires WellFormed(c) && i < c.settings.octaves
    ensures -1.0 <= r <= 1.0
  {
    var frequency := Pow(c.settings.lacunarity, i);
    var sampleX := SampleCoord(x, c.halfWidth, c.octaveOffsets[i].x, c.settings.scale, frequency);
    var sampleY := SampleCoord(y, c.halfHeight, c.octaveOffsets[i].y, c.settings.scale, frequency);
    c.perlin(sampleX, sampleY) * 2.0 - 1.0
  }

  /** The height of cell (x, y) after its first `k` octaves. */
  function PartialHeight(c: Sampling, x: int, y: int, k: nat): real
    requires WellFormed(c) && k <= c.settings.octaves
  {
    if k == 0 then 0.0
    else PartialHeight(c, x, y, k - 1) + PerlinValue(c, x, y, k - 1) * Pow(c.settings.persistance, k - 1)
  }

  /** The raw height of cell (x, y): the sum over all octaves. */
  function RawHeight(c: Sampling, x: int, y: int): real
    requires WellFormed(c)
  {
    PartialHeight(c, x, y, c.settings.octaves)
  }

  lemma ScaledBound(v: real, a: real)
    requires -1.0 <= v <= 1.0 && 0.0 <= a
    ensures -a <= v * a <= a
  {
    assert (1.0 - v) * a >= 0.0;
    assert (1.0 + v) * a >= 0.0;
  }

  /** After `k` octaves a height is bounded by the sum of the first `k` amplitudes. */
  lemma {:induction false} PartialHeightBound(c: Sampling, x: int, y: int, k: nat)
    requires WellFormed(c) && k <= c.settings.octaves
    ensures -MaxPossibleHeight(c.settings.persistance, k) <= PartialHeight(c, x, y, k)
                                                          <= MaxPossibleHeight(c.settings.persistance, k)
  {
    if k > 0 {
      PartialHeightBound(c, x, y, k - 1);
      PowUnit(c.settings.persistance, k - 1);
      var v, a := PerlinValue(c, x, y, k - 1), Pow(c.settings.persistance, k - 1);
      ScaledBound(v, a);
      assert PartialHeight(c, x, y, k) == PartialHeight(c, x, y, k - 1) + v * a;
      assert MaxPossibleHeight(c.settings.persistance, k) == MaxPossibleHeight(c.settings.persistance, k - 1) + a;
    }
  }

  /** Every raw height lies within maxPossibleHeight, and so strictly
      between the two float sentinels. */
  lemma RawHeightBound(c: Sampling, x: int, y: int)
    requires WellFormed(c)
    ensures -MaxPossibleHeight(c.settings.persistance, c.settings.octaves) <= RawHeight(c, x, y)
                                  <= MaxPossibleHeight(c.settings.persistance, c.settings.octaves)
    ensures FLOAT_MIN < RawHeight(c, x, y) < FLOAT_MAX
  {
    PartialHeightBound(c, x, y, c.settings.octaves);
    MaxPossibleHeightBounds(c.settings.persistance, c.settings.octaves);
  }

  /** Lines 56-70: sums the weighted octave samples of cell (x, y). */
  method NoiseHeight(x: int, y: int, halfWidth: real, halfHeight: real,
                     octaveOffsets: array<Vector2>, s: SettingsValue, perlin: PerlinNoise)
    returns (noiseHeight: real)
    requires IsValid(s) && octaveOffsets.Length == s.octaves
    ensures noiseHeight == RawHeight(Sampling(s, octaveOffsets[..], halfWidth, halfHeight, perlin), x, y)
    ensures -MaxPossibleHeight(s.persistance, s.octaves) <= noiseHeight
                                       <= MaxPossibleHeight(s.persistance, s.octaves)
  {
    ghost var c := Sampling(s, octaveOffsets[..], halfWidth, halfHeight, perlin);
    var amplitude := 1.0;
    var frequency := 1.0;
    noiseHeight := 0.0;
    for i := 0 to s.octaves
      invariant amplitude == Pow(s.persistance, i)
      invariant frequency == Pow(s.lacunarity, i)
      invariant noiseHeight == PartialHeight(c, x, y, i)
    {
      var sampleX := SampleCoord(x, halfWidth, octaveOffsets[i].x, s.scale, frequency);
      var sampleY := SampleCoord(y, halfHeight, octaveOffsets[i].y, s.scale, frequency);
      var perlinValue := perlin(sampleX, sampleY) * 2.0 - 1.0;
      assert octaveOffsets[i] == c.octaveOffsets[i];
      assert perlinValue == PerlinValue(c, x, y, i);
      noiseHeight := noiseHeight + perlinValue * amplitude;
      amplitude := amplitude * s.persistance;
      frequency := frequency * s.lacunarity;
    }
    RawHeightBound(c, x, y);
  }

  // ---------------------------------------------------------------------
  // Running minimum and maximum (lines 46-47, 73-80)

  /** Cell (i, j) has been visited once the cell loops reach row `y`, column `x`. */
  predicate Visited(mapWidth: nat, y: nat, x: nat, i: int, j: int) {
    (0 <= i < mapWidth && 0 <= j < y) || (0 <= i < x && j == y)
  }

  /** One step of the running minimum (lines 77-80). */
  function TrackMin(current: real, noiseHeight: real): real {
    if noiseHeight < current then noiseHeight else current
  }

  /** One step of the running maximum (lines 73-76). */
  function TrackMax(current: real, noiseHeight: real): real {
    if noiseHeight > current then noiseHeight else current
  }

  /** minLocalNoiseHeight once the cell loops reach row `y`, column `x`. */
  function MinPrefix(c: Sampling, mapWidth: nat, y: nat, x: nat): real
    requires WellFormed(c) && x <= mapWidth
    decreases y, x
  {
    if x > 0 then TrackMin(MinPrefix(c, mapWidth, y, x - 1), RawHeight(c, x - 1, y))
    else if y > 0 then MinPrefix(c, mapWidth, y - 1, mapWidth)
    else FLOAT_MAX
  }

  /** maxLocalNoiseHeight once the cell loops reach row `y`, column `x`. */
  function MaxPrefix(c: Sampling, mapWidth: nat, y: nat, x: nat): real
    requires WellFormed(c) && x <= mapWidth
    decreases y, x
  {
    if x > 0 then TrackMax(MaxPrefix(c, mapWidth, y, x - 1), RawHeight(c, x - 1, y))
    else if y > 0 then MaxPrefix(c, mapWidth, y - 1, mapWidth)
    else FLOAT_MIN
  }

  /** The running minimum is a lower bound of the visited raw heights, is one
      of them once any cell is visited, and is the sentinel before that. */
  lemma {:induction false} MinPrefixSpec(c: Sampling, mapWidth: nat, y: nat, x: nat)
    requires WellFormed(c) && x <= mapWidth
    ensures forall i, j :: Visited(mapWidth, y, x, i, j) ==> MinPrefix(c, mapWidth, y, x) <= RawHeight(c, i, j)
    ensures (x > 0 || (y > 0 && mapWidth > 0)) ==>
      exists i, j :: Visited(mapWidth, y, x, i, j) && MinPrefix(c, mapWidth, y, x) == RawHeight(c, i, j)
    ensures !(x > 0 || (y > 0 && mapWidth > 0)) ==> MinPrefix(c, mapWidth, y, x) == FLOAT_MAX
  {
    var m := MinPrefix(c, mapWidth, y, x);
    if x > 0 {
      MinPrefixSpec(c, mapWidth, y, x - 1);
      var prev := MinPrefix(c, mapWidth, y, x - 1);
      RawHeightBound(c, x - 1, y);
      forall i, j | Visited(mapWidth, y, x, i, j) ensures m <= RawHeight(c, i, j) {
        if !(i == x - 1 && j == y) {
          assert Visited(mapWidth, y, x - 1, i, j);
        }
      }
      if RawHeight(c, x - 1, y) < prev {
        assert Visited(mapWidth, y, x, x - 1, y);
      } else {
        var i, j :| Visited(mapWidth, y, x - 1, i, j) && prev == RawHeight(c, i, j);
        assert Visited(mapWidth, y, x, i, j);
      }
    } else if y > 0 {
      MinPrefixSpec(c, mapWidth, y - 1, mapWidth);
      assert forall i, j :: Visited(mapWidth, y, 0, i, j) == Visited(mapWidth, y - 1, mapWidth, i, j);
    }
  }

  /** The running maximum is an upper bound of the visited raw heights, is one
      of them once any cell is visited, and is the sentinel before that. */
  lemma {:induction false} MaxPrefixSpec(c: Sampling, mapWidth: nat, y: nat, x: nat)
    requires WellFormed(c) && x <= mapWidth
    ensures forall i, j :: Visited(mapWidth, y, x, i, j) ==> RawHeight(c, i, j) <= MaxPrefix(c, mapWidth, y, x)
    ensures (x > 0 || (y > 0 && mapWidth > 0)) ==>
      exists i, j :: Visited(mapWidth, y, x, i, j) && MaxPrefix(c, mapWidth, y, x) == RawHeight(c, i, j)
    ensures !(x > 0 || (y > 0 && mapWidth > 0)) ==> MaxPrefix(c, mapWidth, y, x) == FLOAT_MIN
  {
    var m := MaxPrefix(c, mapWidth, y, x);
    if x > 0 {
      MaxPrefixSpec(c, mapWidth, y, x - 1);
      var prev := MaxPrefix(c, mapWidth, y, x - 1);
      RawHeightBound(c, x - 1, y);
      forall i, j | Visited(mapWidth, y, x, i, j) ensures RawHeight(c, i, j) <= m {
        if !(i == x - 1 && j == y) {
          assert Visited(mapWidth, y, x - 1, i, j);
        }
      }
      if RawHeight(c, x - 1, y) > prev {
        assert Visited(mapWidth, y, x, x - 1, y);
      } else {
        var i, j :| Visited(mapWidth, y, x - 1, i, j) && prev == RawHeight(c, i, j);
        assert Visited(mapWidth, y, x, i, j);
      }
    } else if y > 0 {
      MaxPrefixSpec(c, mapWidth, y - 1, mapWidth);
      assert forall i, j :: Visited(mapWidth, y, 0, i, j) == Visited(mapWidth, y - 1, mapWidth, i, j);
    }
  }

  /** minLocalNoiseHeight after the cell loops. */
  function MinLocalNoiseHeight(c: Sampling, mapWidth: nat, mapHeight: nat): real
    requires WellFormed(c)
  {
    MinPrefix(c, mapWidth, mapHeight, 0)
  }

  /** maxLocalNoiseHeight after the cell loops. */
  function MaxLocalNoiseHeight(c: Sampling, mapWidth: nat, mapHeight: nat): real
    requires WellFormed(c)
  {
    MaxPrefix(c, mapWidth, mapHeight, 0)
  }

  /** After the cell loops the tracked minimum and maximum bound every raw
      height of the map, and on a non-empty map both are raw heights of
      some cell; an empty map leaves the sentinels. */
  lemma LocalExtremesSpec(c: Sampling, mapWidth: nat, mapHeight: nat)
    requires WellFormed(c)
    ensures forall x, y :: 0 <= x < mapWidth && 0 <= y < mapHeight ==>
      MinLocalNoiseHeight(c, mapWidth, mapHeight) <= RawHeight(c, x, y) <= MaxLocalNoiseHeight(c, mapWidth, mapHeight)
    ensures mapWidth > 0 && mapHeight > 0 ==>
      (exists x, y :: 0 <= x < mapWidth && 0 <= y < mapHeight &&
         RawHeight(c, x, y) == MinLocalNoiseHeight(c, mapWidth, mapHeight)) &&
      (exists x, y :: 0 <= x < mapWidth && 0 <= y < mapHeight &&
         RawHeight(c, x, y) == MaxLocalNoiseHeight(c, mapWidth, mapHeight))
    ensures mapWidth == 0 || mapHeight == 0 ==>
      MinLocalNoiseHeight(c, mapWidth, mapHeight) == FLOAT_MAX &&
      MaxLocalNoiseHeight(c, mapWidth, mapHeight) == FLOAT_MIN
  {
    MinPrefixSpec(c, mapWidth, mapHeight, 0);
    MaxPrefixSpec(c, mapWidth, mapHeight, 0);
    assert forall x, y :: Visited(mapWidth, mapHeight, 0, x, y) <==> 0 <= x < mapWidth && 0 <= y < mapHeight;
  }

  /** On a non-empty map the tracked minimum is below the tracked maximum
      exactly when not all raw heights are equal. */
  lemma MinBelowMaxIffNonConstant(c: Sampling, mapWidth: nat, mapHeight: nat)
    requires WellFormed(c) && mapWidth > 0 && mapHeight > 0
    ensures MinLocalNoiseHeight(c, mapWidth, mapHeight) < MaxLocalNoiseHeight(c, mapWidth, mapHeight) <==>
      exists x1, y1, x2, y2 :: 0 <= x1 < mapWidth && 0 <= y1 < mapHeight &&
                               0 <= x2 < mapWidth && 0 <= y2 < mapHeight &&
                               RawHeight(c, x1, y1) != RawHeight(c, x2, y2)
  {
    LocalExtremesSpec(c, mapWidth, mapHeight);
    var lo := MinLocalNoiseHeight(c, mapWidth, mapHeight);
    var hi := MaxLocalNoiseHeight(c, mapWidth, mapHeight);
    if lo < hi {
      var x1, y1 :| 0 <= x1 < mapWidth && 0 <= y1 < mapHeight && RawHeight(c, x1, y1) == lo;
      var x2, y2 :| 0 <= x2 < mapWidth && 0 <= y2 < mapHeight && RawHeight(c, x2, y2) == hi;
      assert RawHeight(c, x1, y1) != RawHeight(c, x2, y2);
    }
  }

  // ---------------------------------------------------------------------
  // Normalisation (lines 84-88, 95-104)

  /** Line 86-87: the Global-mode normalisation of one raw height. */
  function GlobalHeight(noiseHeight: real, maxPossibleHeight: real): (r: real)
    requires maxPossibleHeight > 0.0
    ensures 0.0 <= r <= INT_MAX
    ensures 0.0 <= (noiseHeight + 1.0) / maxPossibleHeight <= INT_MAX ==>
      r == (noiseHeight + 1.0) / maxPossibleHeight
    ensures (noiseHeight + 1.0) / maxPossibleHeight < 0.0 ==> r == 0.0
    ensures (noiseHeight + 1.0) / maxPossibleHeight > INT_MAX ==> r == INT_MAX
  {
    Clamp((noiseHeight + 1.0) / (2.0 * maxPossibleHeight / 2.0), 0.0, INT_MAX)
  }

  /** With a raw height bounded by maxPossibleHeight >= 1, the upper clamp
      never applies: Global output is (h + 1) / maxPossibleHeight cut at 0,
      and at most 2. */
  lemma GlobalHeightRange(noiseHeight: real, maxPossibleHeight: real)
    requires 1.0 <= maxPossibleHeight && -maxPossibleHeight <= noiseHeight <= maxPossibleHeight
    ensures GlobalHeight(noiseHeight, maxPossibleHeight) <= 2.0
    ensures noiseHeight >= -1.0 ==> GlobalHeight(noiseHeight, maxPossibleHeight) == (noiseHeight + 1.0) / maxPossibleHeight
    ensures noiseHeight < -1.0 ==> GlobalHeight(noiseHeight, maxPossibleHeight) == 0.0
  {
    var q := (noiseHeight + 1.0) / maxPossibleHeight;
    DivLe(noiseHeight + 1.0, maxPossibleHeight, 2.0);
    if noiseHeight < -1.0 {
      DivLe(noiseHeight + 1.0, maxPossibleHeight, 0.0);
      assert q <= 0.0;
    } else {
      DivGe(noiseHeight + 1.0, maxPossibleHeight, 0.0);
    }
  }

  /** A cell after the cell loops: normalised already in Global mode, raw in Local mode. */
  function FirstPassHeight(c: Sampling, x: int, y: int): real
    requires WellFormed(c)
  {
    MaxPossibleHeightBounds(c.settings.persistance, c.settings.octaves);
    if c.settings.normalizeMode == Global
    then GlobalHeight(RawHeight(c, x, y), MaxPossibleHeight(c.settings.persistance, c.settings.octaves))
    else RawHeight(c, x, y)
  }

  /** The value GenerateNoiseMap leaves in cell (x, y). */
  function NoiseMapValue(c: Sampling, mapWidth: nat, mapHeight: nat, x: int, y: int): real
    requires WellFormed(c)
  {
    match c.settings.normalizeMode
    case Global => FirstPassHeight(c, x, y)
    case Local => InverseLerp(MinLocalNoiseHeight(c, mapWidth, mapHeight),
                              MaxLocalNoiseHeight(c, mapWidth, mapHeight), RawHeight(c, x, y))
  }

  /** Local mode: every cell lies in [0, 1], and on a constant map every
      cell is 0. */
  lemma LocalModeRange(c: Sampling, mapWidth: nat, mapHeight: nat)
    requires WellFormed(c) && c.settings.normalizeMode == Local
    ensures forall x, y :: 0 <= x < mapWidth && 0 <= y < mapHeight ==>
      0.0 <= NoiseMapValue(c, mapWidth, mapHeight, x, y) <= 1.0
    ensures MinLocalNoiseHeight(c, mapWidth, mapHeight) == MaxLocalNoiseHeight(c, mapWidth, mapHeight) ==>
      forall x, y :: 0 <= x < mapWidth && 0 <= y < mapHeight ==> NoiseMapValue(c, mapWidth, mapHeight, x, y) == 0.0
  {
  }

  /** Local mode on a non-empty, non-constant map: the cells holding the
      minimum and the maximum raw height map to exactly 0 and 1. */
  lemma LocalModeSpansUnitInterval(c: Sampling, mapWidth: nat, mapHeight: nat)
    requires WellFormed(c) && c.settings.normalizeMode == Local && mapWidth > 0 && mapHeight > 0
    requires MinLocalNoiseHeight(c, mapWidth, mapHeight) < MaxLocalNoiseHeight(c, mapWidth, mapHeight)
    ensures exists x, y :: 0 <= x < mapWidth && 0 <= y < mapHeight && NoiseMapValue(c, mapWidth, mapHeight, x, y) == 0.0
    ensures exists x, y :: 0 <= x < mapWidth && 0 <= y < mapHeight && NoiseMapValue(c, mapWidth, mapHeight, x, y) == 1.0
  {
    LocalExtremesSpec(c, mapWidth, mapHeight);
    var lo := MinLocalNoiseHeight(c, mapWidth, mapHeight);
    var hi := MaxLocalNoiseHeight(c, mapWidth, mapHeight);
    var x1, y1 :| 0 <= x1 < mapWidth && 0 <= y1 < mapHeight && RawHeight(c, x1, y1) == lo;
    var x2, y2 :| 0 <= x2 < mapWidth && 0 <= y2 < mapHeight && RawHeight(c, x2, y2) == hi;
    assert NoiseMapValue(c, mapWidth, mapHeight, x1, y1) == 0.0;
    assert NoiseMapValue(c, mapWidth, mapHeight, x2, y2) == 1.0;
  }

  /** Local mode on a non-constant map loses nothing: every raw height is
      recovered by interpolating its output between the two extremes. */
  lemma LocalModeRoundTrip(c: Sampling, mapWidth: nat, mapHeight: nat)
    requires WellFormed(c) && c.settings.normalizeMode == Local
    requires MinLocalNoiseHeight(c, mapWidth, mapHeight) < MaxLocalNoiseHeight(c, mapWidth, mapHeight)
    ensures forall x, y :: 0 <= x < mapWidth && 0 <= y < mapHeight ==>
      MinLocalNoiseHeight(c, mapWidth, mapHeight) +
        NoiseMapValue(c, mapWidth, mapHeight, x, y) *
          (MaxLocalNoiseHeight(c, mapWidth, mapHeight) - MinLocalNoiseHeight(c, mapWidth, mapHeight))
      == RawHeight(c, x, y)
  {
    LocalExtremesSpec(c, mapWidth, mapHeight);
    var lo := MinLocalNoiseHeight(c, mapWidth, mapHeight);
    var hi := MaxLocalNoiseHeight(c, mapWidth, mapHeight);
    forall x, y | 0 <= x < mapWidth && 0 <= y < mapHeight
      ensures lo + NoiseMapValue(c, mapWidth, mapHeight, x, y) * (hi - lo) == RawHeight(c, x, y)
    {
      assert lo <= RawHeight(c, x, y) <= hi;
    }
  }

  /** Global mode: every cell is (h + 1) / maxPossibleHeight cut at 0, so
      non-negative, and never above 2, so the int.MaxValue bound never applies. */
  lemma GlobalModeNormalisation(c: Sampling, mapWidth: nat, mapHeight: nat)
    requires WellFormed(c) && c.settings.normalizeMode == Global
    ensures MaxPossibleHeight(c.settings.persistance, c.settings.octaves) >= 1.0
    ensures forall x, y :: 0 <= x < mapWidth && 0 <= y < mapHeight ==>
      0.0 <= NoiseMapValue(c, mapWidth, mapHeight, x, y) <= 2.0
    ensures forall x, y :: 0 <= x < mapWidth && 0 <= y < mapHeight && RawHeight(c, x, y) >= -1.0 ==>
      NoiseMapValue(c, mapWidth, mapHeight, x, y) ==
        (RawHeight(c, x, y) + 1.0) / MaxPossibleHeight(c.settings.persistance, c.settings.octaves)
    ensures forall x, y :: 0 <= x < mapWidth && 0 <= y < mapHeight && RawHeight(c, x, y) < -1.0 ==>
      NoiseMapValue(c, mapWidth, mapHeight, x, y) == 0.0
  {
    MaxPossibleHeightBounds(c.settings.persistance, c.settings.octaves);
    forall x, y | 0 <= x < mapWidth && 0 <= y < mapHeight
      ensures 0.0 <= NoiseMapValue(c, mapWidth, mapHeight, x, y) <= 2.0
      ensures RawHeight(c, x, y) >= -1.0 ==> (NoiseMapValue(c, mapWidth, mapHeight, x, y) ==
        (RawHeight(c, x, y) + 1.0) / MaxPossibleHeight(c.settings.persistance, c.settings.octaves))
      ensures RawHeight(c, x, y) < -1.0 ==> NoiseMapValue(c, mapWidth, mapHeight, x, y) == 0.0
    {
      RawHeightBound(c, x, y);
      GlobalHeightRange(RawHeight(c, x, y), MaxPossibleHeight(c.settings.persistance, c.settings.octaves));
    }
  }

  /** With one octave a raw height is the rescaled primitive at the cell's
      own sample point. */
  lemma SingleOctave(c: Sampling, x: int, y: int)
    requires WellFormed(c) && c.settings.octaves == 1
    ensures RawHeight(c, x, y) ==
      c.perlin(SampleCoord(x, c.halfWidth, c.octaveOffsets[0].x, c.settings.scale, 1.0),
               SampleCoord(y, c.halfHeight, c.octaveOffsets[0].y, c.settings.scale, 1.0)) * 2.0 - 1.0
  {
    assert Pow(c.settings.lacunarity, 0) == 1.0 && Pow(c.settings.persistance, 0) == 1.0;
    assert RawHeight(c, x, y) == PartialHeight(c, x, y, 1)
                              == PartialHeight(c, x, y, 0) + PerlinValue(c, x, y, 0) * Pow(c.settings.persistance, 0);
  }

  /** With persistance 0 every octave after the first has amplitude 0. */
  lemma {:induction false} ZeroPersistanceFirstOctave(c: Sampling, x: int, y: int, k: nat)
    requires WellFormed(c) && c.settings.persistance == 0.0 && 1 <= k <= c.settings.octaves
    ensures PartialHeight(c, x, y, k) == PerlinValue(c, x, y, 0)
  {
    if k > 1 {
      ZeroPersistanceFirstOctave(c, x, y, k - 1);
      assert Pow(0.0, k - 1) == Pow(0.0, k - 2) * 0.0;
    }
  }

  /** The running extremes depend on the raw heights of the visited cells only. */
  lemma {:induction false} PrefixesAgree(c1: Sampling, c2: Sampling, mapWidth: nat, y: nat, x: nat)
    requires WellFormed(c1) && WellFormed(c2) && x <= mapWidth
    requires forall i, j :: Visited(mapWidth, y, x, i, j) ==> RawHeight(c1, i, j) == RawHeight(c2, i, j)
    ensures MinPrefix(c1, mapWidth, y, x) == MinPrefix(c2, mapWidth, y, x)
    ensures MaxPrefix(c1, mapWidth, y, x) == MaxPrefix(c2, mapWidth, y, x)
  {
    if x > 0 {
      assert Visited(mapWidth, y, x, x - 1, y);
      forall i, j | Visited(mapWidth, y, x - 1, i, j) ensures RawHeight(c1, i, j) == RawHeight(c2, i, j) {
        assert Visited(mapWidth, y, x, i, j);
      }
      PrefixesAgree(c1, c2, mapWidth, y, x - 1);
    } else if y > 0 {
      forall i, j | Visited(mapWidth, y - 1, mapWidth, i, j) ensures RawHeight(c1, i, j) == RawHeight(c2, i, j) {
        assert Visited(mapWidth, y, x, i, j);
      }
      PrefixesAgree(c1, c2, mapWidth, y - 1, mapWidth);
    }
  }

  /** With persistance 0, raising the octave count changes no cell of the map
      in either mode. */
  lemma ZeroPersistanceIgnoresOctaves(s: SettingsValue, octaves: Int32, mapWidth: nat, mapHeight: nat,
                                      sampleCentre: Vector2, draws: seq<Draw>, perlin: PerlinNoise)
    requires IsValid(s) && s.persistance == 0.0 && octaves >= 1
    requires 2 * s.octaves <= |draws| && 2 * octaves <= |draws|
    ensures forall x, y :: 0 <= x < mapWidth && 0 <= y < mapHeight ==>
      NoiseMapValue(SamplingFor(s, mapWidth, mapHeight, sampleCentre, draws, perlin), mapWidth, mapHeight, x, y) ==
      NoiseMapValue(SamplingFor(s.(octaves := octaves), mapWidth, mapHeight, sampleCentre, draws, perlin),
                    mapWidth, mapHeight, x, y)
  {
    var c1 := SamplingFor(s, mapWidth, mapHeight, sampleCentre, draws, perlin);
    var c2 := SamplingFor(s.(octaves := octaves), mapWidth, mapHeight, sampleCentre, draws, perlin);
    forall i, j ensures RawHeight(c1, i, j) == RawHeight(c2, i, j) {
      ZeroPersistanceFirstOctave(c1, i, j, s.octaves);
      ZeroPersistanceFirstOctave(c2, i, j, octaves);
      assert c1.octaveOffsets[0] == c2.octaveOffsets[0];
    }
    PrefixesAgree(c1, c2, mapWidth, mapHeight, 0);
    assert MaxPossibleHeight(0.0, s.octaves) == 1.0 == MaxPossibleHeight(0.0, octaves) by {
      MaxPossibleHeightAtZero(s.octaves);
      MaxPossibleHeightAtZero(octaves);
    }
  }

  /** With persistance 0 only the first amplitude counts. */
  lemma {:induction false} MaxPossibleHeightAtZero(octaves: nat)
    requires octaves >= 1
    ensures MaxPossibleHeight(0.0, octaves) == 1.0
  {
    if octaves > 1 {
      MaxPossibleHeightAtZero(octaves - 1);
      assert Pow(0.0, octaves - 1) == Pow(0.0, octaves - 2) * 0.0;
    }
  }

  /** Two maps with the same settings and draws sample the same world point
      for cells whose world coordinates agree: x plus the centre's x, and y
      minus the centre's y (the Y offset is subtracted on line 39). */
  lemma {:induction false} WorldAlignedPartialHeights(c1: Sampling, c2: Sampling, x1: int, y1: int, x2: int, y2: int, k: nat)
    requires WellFormed(c1) && WellFormed(c2) && c1.settings == c2.settings && k <= c1.settings.octaves
    requires c1.halfWidth == c2.halfWidth && c1.halfHeight == c2.halfHeight
    requires forall u, v :: c1.perlin(u, v) == c2.perlin(u, v)
    requires forall i :: 0 <= i < k ==>
      x1 as real + c1.octaveOffsets[i].x == x2 as real + c2.octaveOffsets[i].x &&
      y1 as real + c1.octaveOffsets[i].y == y2 as real + c2.octaveOffsets[i].y
    ensures PartialHeight(c1, x1, y1, k) == PartialHeight(c2, x2, y2, k)
  {
    if k > 0 {
      WorldAlignedPartialHeights(c1, c2, x1, y1, x2, y2, k - 1);
      var i := k - 1;
      var s, f := c1.settings, Pow(c1.settings.lacunarity, i);
      assert x1 as real - c1.halfWidth + c1.octaveOffsets[i].x == x2 as real - c2.halfWidth + c2.octaveOffsets[i].x;
      assert y1 as real - c1.halfHeight + c1.octaveOffsets[i].y == y2 as real - c2.halfHeight + c2.octaveOffsets[i].y;
      assert SampleCoord(x1, c1.halfWidth, c1.octaveOffsets[i].x, s.scale, f)
          == SampleCoord(x2, c2.halfWidth, c2.octaveOffsets[i].x, s.scale, f);
      assert SampleCoord(y1, c1.halfHeight, c1.octaveOffsets[i].y, s.scale, f)
          == SampleCoord(y2, c2.halfHeight, c2.octaveOffsets[i].y, s.scale, f);
      assert PerlinValue(c1, x1, y1, i) == PerlinValue(c2, x2, y2, i);
    }
  }

  /** Maps generated with the same settings agree cell by cell in world
      space: moving the sample centre by (dx, dy) moves the raw height of
      cell (x, y) to cell (x - dx, y + dy), and in Global mode its output
      too, since maxPossibleHeight does not depend on the centre. */
  lemma GlobalTilesAgreeInWorldSpace(s: SettingsValue, mapWidth: nat, mapHeight: nat,
                                     centre1: Vector2, centre2: Vector2, draws: seq<Draw>, perlin: PerlinNoise,
                                     x1: int, y1: int, x2: int, y2: int)
    requires IsValid(s) && 2 * s.octaves <= |draws|
    requires x1 as real + centre1.x == x2 as real + centre2.x
    requires y1 as real - centre1.y == y2 as real - centre2.y
    ensures RawHeight(SamplingFor(s, mapWidth, mapHeight, centre1, draws, perlin), x1, y1) ==
            RawHeight(SamplingFor(s, mapWidth, mapHeight, centre2, draws, perlin), x2, y2)
    ensures s.normalizeMode == Global ==>
      NoiseMapValue(SamplingFor(s, mapWidth, mapHeight, centre1, draws, perlin), mapWidth, mapHeight, x1, y1) ==
      NoiseMapValue(SamplingFor(s, mapWidth, mapHeight, centre2, draws, perlin), mapWidth, mapHeight, x2, y2)
  {
    var c1 := SamplingFor(s, mapWidth, mapHeight, centre1, draws, perlin);
    var c2 := SamplingFor(s, mapWidth, mapHeight, centre2, draws, perlin);
    WorldAlignedPartialHeights(c1, c2, x1, y1, x2, y2, s.octaves);
  }

  // ---------------------------------------------------------------------
  // The generator

  /** Noise.GenerateNoiseMap: a mapWidth x mapHeight map in which every cell
      holds NoiseMapValue. */
  method GenerateNoiseMap(mapWidth: int, mapHeight: int, settings: NoiseSettings, sampleCentre: Vector2,
                          draws: seq<Draw>, perlin: PerlinNoise)
    returns (noiseMap: array2<real>)
    requires 0 <= mapWidth && 0 <= mapHeight
    requires IsValid(settings.Value())
    requires 2 * settings.octaves <= |draws|
    ensures fresh(noiseMap)
    ensures noiseMap.Length0 == mapWidth && noiseMap.Length1 == mapHeight
    ensures forall x, y :: 0 <= x < mapWidth && 0 <= y < mapHeight ==>
      noiseMap[x, y] == NoiseMapValue(SamplingFor(settings.Value(), mapWidth, mapHeight, sampleCentre, draws, perlin),
                                      mapWidth, mapHeight, x, y)
  {
    noiseMap := new real[mapWidth, mapHeight];
    var s := settings.Value();
    var octaveOffsets, maxPossibleHeight := OctaveOffsets(s, sampleCentre, draws);

    var maxLocalNoiseHeight := FLOAT_MIN;
    var minLocalNoiseHeight := FLOAT_MAX;

    var halfWidth := (mapWidth / 2) as real;
    var halfHeight := (mapHeight / 2) as real;

    ghost var c := Sampling(s, octaveOffsets[..], halfWidth, halfHeight, perlin);
    assert c == SamplingFor(s, mapWidth, mapHeight, sampleCentre, draws, perlin);
    MaxPossibleHeightBounds(s.persistance, s.octaves);

    for y := 0 to mapHeight
      modifies noiseMap
      invariant minLocalNoiseHeight == MinPrefix(c, mapWidth, y, 0)
      invariant maxLocalNoiseHeight == MaxPrefix(c, mapWidth, y, 0)
      invariant forall i, j :: 0 <= i < mapWidth && 0 <= j < y ==> noiseMap[i, j] == FirstPassHeight(c, i, j)
    {
      for x := 0 to mapWidth
        modifies noiseMap
        invariant minLocalNoiseHeight == MinPrefix(c, mapWidth, y, x)
        invariant maxLocalNoiseHeight == MaxPrefix(c, mapWidth, y, x)
        invariant forall i, j :: 0 <= i < mapWidth && 0 <= j < y ==> noiseMap[i, j] == FirstPassHeight(c, i, j)
        invariant forall i :: 0 <= i < x ==> noiseMap[i, y] == FirstPassHeight(c, i, y)
      {
        assert octaveOffsets[..] == c.octaveOffsets;
        var noiseHeight := NoiseHeight(x, y, halfWidth, halfHeight, octaveOffsets, s, perlin);
        assert Sampling(s, octaveOffsets[..], halfWidth, halfHeight, perlin) == c;
        assert noiseHeight == RawHeight(c, x, y);
        assert MinPrefix(c, mapWidth, y, x + 1) == TrackMin(minLocalNoiseHeight, noiseHeight);
        assert MaxPrefix(c, mapWidth, y, x + 1) == TrackMax(maxLocalNoiseHeight, noiseHeight);

        if noiseHeight > maxLocalNoiseHeight {
          maxLocalNoiseHeight := noiseHeight;
        }
        if noiseHeight < minLocalNoiseHeight {
          minLocalNoiseHeight := noiseHeight;
        }

        noiseMap[x, y] := noiseHeight;

        if s.normalizeMode == Global {
          var normalizedHeight := (noiseMap[x, y] + 1.0) / (2.0 * maxPossibleHeight / 2.0);
          noiseMap[x, y] := Clamp(normalizedHeight, 0.0, INT_MAX);
        }
        assert noiseMap[x, y] == FirstPassHeight(c, x, y);
      }
    }

    if s.normalizeMode == Local {
      NormalizeLocal(noiseMap, minLocalNoiseHeight, maxLocalNoiseHeight);
    }
    assert s == settings.Value();
  }

  /** Lines 95-104: the second pass of Local mode, which rewrites every cell
      in place by inverse interpolation between the tracked extremes. */
  method NormalizeLocal(noiseMap: array2<real>, minLocalNoiseHeight: real, maxLocalNoiseHeight: real)
    modifies noiseMap
    ensures forall x, y :: 0 <= x < noiseMap.Length0 && 0 <= y < noiseMap.Length1 ==>
      noiseMap[x, y] == InverseLerp(minLocalNoiseHeight, maxLocalNoiseHeight, old(noiseMap[x, y]))
  {
    for y := 0 to noiseMap.Length1
      invariant forall i, j :: 0 <= i < noiseMap.Length0 && 0 <= j < y ==>
        noiseMap[i, j] == InverseLerp(minLocalNoiseHeight, maxLocalNoiseHeight, old(noiseMap[i, j]))
      invariant forall i, j :: 0 <= i < noiseMap.Length0 && y <= j < noiseMap.Length1 ==>
        noiseMap[i, j] == old(noiseMap[i, j])
    {
      for x := 0 to noiseMap.Length0
        invariant forall i, j :: 0 <= i < noiseMap.Length0 && 0 <= j < y ==>
          noiseMap[i, j] == InverseLerp(minLocalNoiseHeight, maxLocalNoiseHeight, old(noiseMap[i, j]))
        invariant forall i :: 0 <= i < x ==>
          noiseMap[i, y] == InverseLerp(minLocalNoiseHeight, maxLocalNoiseHeight, old(noiseMap[i, y]))
        invariant forall i, j :: 0 <= i < noiseMap.Length0 && y <= j < noiseMap.Length1 && (j > y || i >= x) ==>
          noiseMap[i, j] == old(noiseMap[i, j])
      {
        noiseMap[x, y] := InverseLerp(minLocalNoiseHeight, maxLocalNoiseHeight, noiseMap[x, y]);
      }
    }
  }
}
