/** The parameter bundle of the height-field generator and its validator
    (the class NoiseSettings of Assets/TerrainGenerator/Scripts/Noise.cs). */
module Settings {

  /** Noise.NormalizeMode: how the raw heights of one map are rescaled. */
  datatype NormalizeMode = Local | Global

  /** UnityEngine.Vector2, reduced to its two components. */
  datatype Vector2 = Vector2(x: real, y: real)

  /** A C# `int`. */
  type Int32 = i: int | -0x8000_0000 <= i < 0x8000_0000

  /** The floor that validation puts under `scale`. */
  const MIN_SCALE: real := 0.01

  /** The value held by a NoiseSettings object at one moment. */
  datatype SettingsValue = SettingsValue(
    normalizeMode: NormalizeMode,
    scale: real,
    octaves: Int32,
    persistance: real,
    lacunarity: real,
    seed: Int32,
    offset: Vector2)

  /** The field initialisers of NoiseSettings; `normalizeMode`, `seed` and
      `offset` take C#'s default values. */
  const DEFAULTS: SettingsValue :=
    SettingsValue(Local, 50.0, 6, 0.6, 2.0, 0, Vector2(0.0, 0.0))

  /** Mathf.Max on floats. */
  function MaxReal(a: real, b: real): (r: real)
    ensures r >= a && r >= b
    ensures r == a || r == b
  {
    if a > b then a else b
  }

  /** Mathf.Max on ints. */
  function MaxInt(a: int, b: int): (r: int)
    ensures r >= a && r >= b
    ensures r == a || r == b
  {
    if a > b then a else b
  }

  /** Mathf.Clamp01. */
  function Clamp01(value: real): (r: real)
    ensures 0.0 <= r <= 1.0
    ensures 0.0 <= value <= 1.0 ==> r == value
    ensures value < 0.0 ==> r == 0.0
    ensures value > 1.0 ==> r == 1.0
  {
    if value < 0.0 then 0.0 else if value > 1.0 then 1.0 else value
  }

  /** The ranges in which the generator may be called: no zero scale, at
      least one octave, no shrinking frequency, and a decaying amplitude. */
  predicate IsValid(s: SettingsValue) {
    s.scale >= MIN_SCALE && s.octaves >= 1 && s.lacunarity >= 1.0 &&
    0.0 <= s.persistance <= 1.0
  }

  /** What ValidateValues does to the settings. */
  function Validated(s: SettingsValue): (r: SettingsValue)
    ensures IsValid(r)
    ensures r.normalizeMode == s.normalizeMode && r.seed == s.seed && r.offset == s.offset
    ensures s.scale >= MIN_SCALE ==> r.scale == s.scale
    ensures s.scale < MIN_SCALE ==> r.scale == MIN_SCALE
    ensures s.octaves >= 1 ==> r.octaves == s.octaves
    ensures s.octaves < 1 ==> r.octaves == 1
    ensures s.lacunarity >= 1.0 ==> r.lacunarity == s.lacunarity
    ensures s.lacunarity < 1.0 ==> r.lacunarity == 1.0
    ensures 0.0 <= s.persistance <= 1.0 ==> r.persistance == s.persistance
    ensures s.persistance < 0.0 ==> r.persistance == 0.0
    ensures s.persistance > 1.0 ==> r.persistance == 1.0
    ensures IsValid(s) ==> r == s
  {
    s.(scale := MaxReal(s.scale, MIN_SCALE),
       octaves := MaxInt(s.octaves, 1),
       lacunarity := MaxReal(s.lacunarity, 1.0),
       persistance := Clamp01(s.persistance))
  }

  /** Validating twice is validating once. */
  lemma ValidatedIdempotent(s: SettingsValue)
    ensures Validated(Validated(s)) == Validated(s)
  {
  }

  /** The example of out-of-range settings: every field is pulled into range
      and a negative persistance becomes 0. */
  lemma ValidatedExample()
    ensures var r := Validated(SettingsValue(Local, 0.0, 0, -1.0, 0.0, 1, Vector2(0.0, 0.0)));
      r.scale == MIN_SCALE && r.octaves == 1 && r.lacunarity == 1.0 && r.persistance == 0.0
  {
  }

  class NoiseSettings {
    var normalizeMode: NormalizeMode
    var scale: real
    var octaves: Int32
    var persistance: real
    var lacunarity: real
    var seed: Int32
    var offset: Vector2

    /** The current value of all fields. */
    function Value(): SettingsValue
      reads this
    {
      SettingsValue(normalizeMode, scale, octaves, persistance, lacunarity, seed, offset)
    }

    /** A new object holds the field initialisers, which are already valid. */
    constructor ()
      ensures Value() == DEFAULTS
      ensures IsValid(Value())
    {
      normalizeMode := Local;
      scale := 50.0;
      octaves := 6;
      persistance := 0.6;
      lacunarity := 2.0;
      seed := 0;
      offset := Vector2(0.0, 0.0);
    }

    /** Clamps the fields in place; the result is valid and fields already in
        range keep their values. */
    method ValidateValues()
      modifies this
      ensures Value() == Validated(old(Value()))
      ensures IsValid(Value())
      ensures IsValid(old(Value())) ==> Value() == old(Value())
    {
      scale := MaxReal(scale, MIN_SCALE);
      octaves := MaxInt(octaves, 1);
      lacunarity := MaxReal(lacunarity, 1.0);
      persistance := Clamp01(persistance);
    }
  }
}
