# Fractal height-field generator, modelled in Dafny

This project models the height-field generator of a Unity terrain project:
`Noise.GenerateNoiseMap` and the parameter bundle `NoiseSettings` with its
validator `ValidateValues`, both in `Assets/TerrainGenerator/Scripts/Noise.cs`.

The generator fills a `mapWidth × mapHeight` map in these steps:

1. It draws one offset pair per octave from a seeded random source.
2. It sums the octave amplitudes 1, p, p², … into `maxPossibleHeight`.
3. For every cell it sums the octave samples of a smooth-noise primitive. Each
   sample is rescaled from [0, 1] to [-1, 1] and weighted by the octave's
   amplitude.
4. It tracks the running minimum and maximum of these raw heights.
5. It normalises each cell. Global mode divides by `maxPossibleHeight` as each
   cell is computed. Local mode runs a second pass that inverse-interpolates
   every cell between the tracked extremes.

Files:

- `settings.dfy`, module `Settings`:
  - the `NormalizeMode` enumeration and a `Vector2` pair of reals;
  - `SettingsValue`, a value snapshot of the settings;
  - `Validated`, the function that states what validation does;
  - the class `NoiseSettings`, whose fields `ValidateValues` updates in place.
- `noise.dfy`, module `Noise`: specification functions for every quantity the
  generator computes, the generator itself as methods over arrays, and lemmas
  for the properties the code promises. The specification functions, all in
  `Assets/TerrainGenerator/Scripts/Noise.cs`, are:
  - `Pow`: the amplitude p^i and frequency l^i after i octaves (lines 43, 68-69);
  - `MaxPossibleHeight`: the sum of the first n amplitudes (lines 32-44);
  - `OctaveOffset`, `OctaveOffsetSeq`: the offset of one octave and of all
    octaves (lines 36-40);
  - `SampleCoord`: the sample coordinate of a cell for one octave (lines 62-63);
  - `PartialHeight`: the height of a cell after its first k octaves (lines 56-70);
  - `RawHeight`: the height of a cell summed over all octaves (lines 56-70);
  - `TrackMin`, `TrackMax`: one step of the running minimum and maximum
    (lines 73-80);
  - `MinPrefix`, `MaxPrefix`: the running minimum and maximum at any point of
    the cell loops (lines 46-47, 52-91);
  - `MinLocalNoiseHeight`, `MaxLocalNoiseHeight`: the extremes after the cell
    loops (lines 46-91);
  - `FirstPassHeight`: a cell after the cell loops, normalised in Global mode
    and raw in Local mode (lines 82-88);
  - `NoiseMapValue`: the value the generator leaves in a cell (lines 82-104).

Modelling choices:

- Numbers are `real`. The two float sentinels `float.MinValue` and
  `float.MaxValue` keep their exact values.
- `octaves` and `seed` are C# `int`s (`Int32`). So every raw height is at most
  `octaves < 2^31` in magnitude, and the first cell always replaces both
  sentinels.
- `Mathf.PerlinNoise` is a parameter of subset type `PerlinNoise`: any total
  function with results in [0, 1].
- The draws of `System.Random` are an input sequence of `Draw`s in
  [-100000, 100000). Octave `i` takes draw `2i` for X and draw `2i+1` for Y,
  in the order lines 38-39 call `Next`.
- Unity's `Mathf.Max`, `Clamp`, `Clamp01` and `InverseLerp` are written out
  with Unity's documented behaviour. In particular `InverseLerp(a, a, v)` is 0,
  so a constant map normalises to all zeros in Local mode.
- `GenerateNoiseMap` is one C# function. Here each of its loops is a method of
  its own, so that each carries its own invariants:
  - `OctaveOffsets`: the octave loop, lines 30-44;
  - `NoiseHeight`: the per-cell octave loop, lines 56-70;
  - `NormalizeLocal`: the Local-mode pass, lines 95-104.
  `GenerateNoiseMap` keeps the cell loops, the min/max tracking and the Global
  normalisation. It allocates and fills the `array2<real>`.
- `GenerateNoiseMap` is proved against `NoiseMapValue`: every cell it writes
  equals `NoiseMapValue` of the `Sampling` that `SamplingFor` builds from the
  inputs. The lemmas state the properties of `NoiseMapValue`.
- `halfWidth` and `halfHeight` are `mapWidth / 2` and `mapHeight / 2` in
  integer division, as the code does on lines 49-50.

## Model

| member | source | states |
|---|---|---|
| `Settings.MaxReal` | Assets/TerrainGenerator/Scripts/Noise.cs:127 | Mathf.Max on floats, used here and on line 129: the result is at least both arguments and is one of them |
| `Settings.MaxInt` | Assets/TerrainGenerator/Scripts/Noise.cs:128 | Mathf.Max on ints: the result is at least both arguments and is one of them |
| `Settings.Clamp01` | Assets/TerrainGenerator/Scripts/Noise.cs:130 | the result is in [0, 1]; a value already there is kept, below 0 gives 0, above 1 gives 1 |
| `Settings.Validated` | Assets/TerrainGenerator/Scripts/Noise.cs:125-131 | after validation, scale >= 0.01, octaves >= 1, lacunarity >= 1 and 0 <= persistance <= 1; each field already in range keeps its value, each field out of range becomes its bound; normalizeMode, seed and offset are untouched; valid settings are left as they are |
| `Settings.ValidatedIdempotent` | Assets/TerrainGenerator/Scripts/Noise.cs:125-131 | validating twice gives the same settings as validating once |
| `Settings.ValidatedExample` | Assets/TerrainGenerator/Scripts/Noise.cs:125-131 | scale 0, octaves 0, lacunarity 0 and persistance -1 become 0.01, 1, 1 and 0 |
| `Settings.NoiseSettings.constructor` | Assets/TerrainGenerator/Scripts/Noise.cs:113-123 | a new object holds the field initialisers (Local, 50, 6, 0.6, 2, seed 0, offset (0, 0)), which are already valid |
| `Settings.NoiseSettings.ValidateValues` | Assets/TerrainGenerator/Scripts/Noise.cs:125-131 | the new field values are `Validated` of the old ones, so they are valid, and valid settings are left unchanged |
| `Noise.OctaveOffsets` | Assets/TerrainGenerator/Scripts/Noise.cs:30-44 | the offset array has exactly `octaves` entries; entry i has x = draw 2i + offset.x + sampleCentre.x and y = draw 2i+1 - offset.y - sampleCentre.y; maxPossibleHeight is the sum of the first `octaves` amplitudes |
| `Noise.PowUnit` | Assets/TerrainGenerator/Scripts/Noise.cs:43 | with persistance in [0, 1] every amplitude lies in [0, 1] |
| `Noise.MaxPossibleHeightBounds` | Assets/TerrainGenerator/Scripts/Noise.cs:32-44 | with valid settings 1 <= maxPossibleHeight <= octaves, so the Global divisor is never zero |
| `Noise.MaxPossibleHeightClosedForm` | Assets/TerrainGenerator/Scripts/Noise.cs:42-43 | the amplitude sum is the geometric series: (1 - p) * maxPossibleHeight = 1 - p^octaves |
| `Noise.PerlinValue` | Assets/TerrainGenerator/Scripts/Noise.cs:65 | the primitive's value rescaled by `* 2 - 1` lies in [-1, 1] |
| `Noise.NoiseHeight` | Assets/TerrainGenerator/Scripts/Noise.cs:56-70 | the accumulated noiseHeight equals the raw height of the cell (amplitude p^i and frequency l^i at octave i), and its magnitude is at most maxPossibleHeight |
| `Noise.PartialHeightBound` | Assets/TerrainGenerator/Scripts/Noise.cs:60-70 | after k octaves the height's magnitude is at most the sum of the first k amplitudes |
| `Noise.RawHeightBound` | Assets/TerrainGenerator/Scripts/Noise.cs:46-70 | every raw height lies within ±maxPossibleHeight and strictly between float.MinValue and float.MaxValue |
| `Noise.MinPrefixSpec` | Assets/TerrainGenerator/Scripts/Noise.cs:47-80 | at any point of the cell loops the running minimum is at most every visited raw height; once any cell is visited it equals one of them; before that it is float.MaxValue |
| `Noise.MaxPrefixSpec` | Assets/TerrainGenerator/Scripts/Noise.cs:46-76 | at any point of the cell loops the running maximum is at least every visited raw height; once any cell is visited it equals one of them; before that it is float.MinValue |
| `Noise.LocalExtremesSpec` | Assets/TerrainGenerator/Scripts/Noise.cs:46-91 | after the cell loops min <= h <= max for every raw height h of the map; on a non-empty map both bounds are attained by some cell; an empty map keeps the sentinels |
| `Noise.MinBelowMaxIffNonConstant` | Assets/TerrainGenerator/Scripts/Noise.cs:73-80 | on a non-empty map the tracked minimum is below the tracked maximum exactly when two cells have different raw heights |
| `Noise.PrefixesAgree` | Assets/TerrainGenerator/Scripts/Noise.cs:73-80 | the tracked extremes depend only on the raw heights of the visited cells |
| `Noise.Clamp` | Assets/TerrainGenerator/Scripts/Noise.cs:87 | Mathf.Clamp: the result lies in [lo, hi]; a value inside is kept, values outside go to the nearer bound |
| `Noise.GlobalHeight` | Assets/TerrainGenerator/Scripts/Noise.cs:86-87 | the Global value is (h + 1) / maxPossibleHeight clamped to [0, int.MaxValue]: never negative, exactly the quotient when the quotient is in range, 0 below the range and int.MaxValue above it |
| `Noise.GlobalHeightRange` | Assets/TerrainGenerator/Scripts/Noise.cs:86-87 | for \|h\| <= maxPossibleHeight with maxPossibleHeight >= 1 the value is at most 2; it is the quotient for h >= -1 and 0 below |
| `Noise.GlobalModeNormalisation` | Assets/TerrainGenerator/Scripts/Noise.cs:84-88 | in Global mode every output cell is (h + 1) / maxPossibleHeight cut at 0, lies in [0, 2], and the int.MaxValue bound never applies |
| `Noise.InverseLerp` | Assets/TerrainGenerator/Scripts/Noise.cs:101 | Mathf.InverseLerp: the result lies in [0, 1]; it is 0 for a one-point interval; between a < b it inverts linear interpolation (a + r(b - a) = value); at or below a it is 0, at or above b it is 1 |
| `Noise.NormalizeLocal` | Assets/TerrainGenerator/Scripts/Noise.cs:95-104 | every cell of the map is replaced in place by InverseLerp(min, max, old value) |
| `Noise.LocalModeRange` | Assets/TerrainGenerator/Scripts/Noise.cs:95-104 | in Local mode every output cell lies in [0, 1], and a constant map becomes all zeros |
| `Noise.LocalModeSpansUnitInterval` | Assets/TerrainGenerator/Scripts/Noise.cs:95-104 | in Local mode on a non-empty map with min < max, some cell outputs exactly 0 and some cell outputs exactly 1 |
| `Noise.LocalModeRoundTrip` | Assets/TerrainGenerator/Scripts/Noise.cs:95-104 | in Local mode with min < max, every raw height equals min + output × (max - min) |
| `Noise.GenerateNoiseMap` | Assets/TerrainGenerator/Scripts/Noise.cs:22-107 | returns a fresh mapWidth × mapHeight array in which every cell [x, y] holds the normalised value of its raw height, sampled around (mapWidth div 2, mapHeight div 2) with the offsets drawn by OctaveOffsets |
| `Noise.SingleOctave` | Assets/TerrainGenerator/Scripts/Noise.cs:60-70 | with one octave the raw height is the rescaled primitive at the cell's own sample point |
| `Noise.ZeroPersistanceFirstOctave` | Assets/TerrainGenerator/Scripts/Noise.cs:60-70 | with persistance 0 the height after any k >= 1 octaves is the first octave's sample |
| `Noise.MaxPossibleHeightAtZero` | Assets/TerrainGenerator/Scripts/Noise.cs:36-44 | with persistance 0, maxPossibleHeight is 1 for any octave count |
| `Noise.ZeroPersistanceIgnoresOctaves` | Assets/TerrainGenerator/Scripts/Noise.cs:36-104 | with persistance 0, changing the octave count changes no output cell, in either mode |
| `Noise.WorldAlignedPartialHeights` | Assets/TerrainGenerator/Scripts/Noise.cs:62-63 | two cells whose coordinates plus octave offsets agree accumulate the same height |
| `Noise.GlobalTilesAgreeInWorldSpace` | Assets/TerrainGenerator/Scripts/Noise.cs:38-88 | with the same settings and draws, cell (x1, y1) of a map centred at c1 and cell (x2, y2) of a map centred at c2 have the same raw height when x1 + c1.x = x2 + c2.x and y1 - c1.y = y2 - c2.y; in Global mode their outputs agree too |

## Left out

- Mathf.PerlinNoise: Unity native code. It is not part of this model beyond its [0, 1] range, so its interpolation and continuity are not modelled. Claims about seams between tiles that depend on it are not made.
- System.Random: its algorithm is not part of this model. The draws are an input sequence, so the `seed` field is not used by the generator model. Determinism holds because the model is a function of its inputs.
- IEEE-754 floats: rounding, NaN, infinities and overflow are not modelled. Every quantity is an exact real.
- GlobalHeight: the divisor `2f * maxPossibleHeight / 2f` is exact over reals, so it equals maxPossibleHeight. The upper bound `int.MaxValue` is taken as 2147483647, not as the float 2147483648 it is rounded to.
- GenerateNoiseMap: requires non-negative map sizes. C# throws for negative ones, and the model does not show that exception.
- GenerateNoiseMap: requires validated settings. The C# code does not check this, but it relies on it: a zero scale divides by zero, and a negative octave count throws at `new Vector2[settings.octaves]` on line 30.
- The editor-only `[Range(0, 1)]` and `[System.Serializable]` attributes and the unused `using` directives.
- Mesh building, rendering and the editor UI, which only consume the map.
- Thread safety: the generator keeps no shared state, and concurrent calls are not modelled.
