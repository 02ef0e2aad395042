/**
 * The colour palette (src/ColorPalette.ts): three key colours derived from a
 * track's audio features, and a sampler that mixes them with random
 * barycentric weights drawn from a stream seeded by the track's URI.
 *
 * The `color` package's HSL→RGB conversion, the `alea` generator, `remap`
 * and `Math.sqrt` are collaborators passed in as function values.
 */
module Palette {
  import opened Numeric

  /** A colour as red, green and blue channels, unclamped. */
  datatype Rgb = Rgb(red: real, green: real, blue: real)

  /** A colour as hue (degrees), saturation and lightness (percent). */
  datatype Hsl = Hsl(hue: real, saturation: real, lightness: real)

  /** The three key colours of a palette. */
  datatype KeyColors = KeyColors(first: Hsl, second: Hsl, third: Hsl)

  /** The audio features a palette is built from. */
  datatype AudioFeatures = AudioFeatures(
    danceability: real, energy: real, key: real, valence: real, acousticness: real, uri: string)

  /** The barycentric weights of one sample. */
  datatype Weights = Weights(f1: real, f2: real, f3: real)

  /**
   * What the palette calls but does not define: `alea(seed)` as the stream
   * of numbers it yields, draw by draw; `remap(value, inLow, inHigh, outLow,
   * outHigh)`; the `color` package's conversion `c.rgb()` of an HSL colour;
   * and `Math.sqrt`.
   */
  datatype Collaborators = Collaborators(
    alea: string -> nat -> real,
    remap: (real, real, real, real, real) -> real,
    hslToRgb: Hsl -> Rgb,
    sqrt: real -> real)

  /** The channel array `c.rgb().array()`. */
  function Channels(c: Rgb): seq<real>
  {
    [c.red, c.green, c.blue]
  }

  /** `Color.rgb(...channels)` on a three-element array. */
  function FromChannels(s: seq<real>): (c: Rgb)
    requires |s| == 3
    ensures Channels(c) == s
  {
    Rgb(s[0], s[1], s[2])
  }

  /** `add`: the channel arrays added element by element. */
  function Add(c1: Rgb, c2: Rgb): (r: Rgb)
    ensures r.red == c1.red + c2.red && r.green == c1.green + c2.green && r.blue == c1.blue + c2.blue
  {
    var a1, a2 := Channels(c1), Channels(c2);
    FromChannels([a1[0] + a2[0], a1[1] + a2[1], a1[2] + a2[2]])
  }

  /** `mult`: every channel scaled by `t`. */
  function Mult(c: Rgb, t: real): (r: Rgb)
    ensures r.red == c.red * t && r.green == c.green * t && r.blue == c.blue * t
  {
    var a1 := Channels(c);
    FromChannels([a1[0] * t, a1[1] * t, a1[2] * t])
  }

  /** A feature in [0, 1] as a hue in degrees. */
  function Hue(fraction: real): (h: real)
    ensures 0.0 <= fraction <= 1.0 ==> 0.0 <= h <= 360.0
  {
    fraction * 360.0
  }

  /** The shared saturation `25 + valence · 75`. */
  function Saturation(valence: real): (s: real)
    ensures 0.0 <= valence <= 1.0 ==> 25.0 <= s <= 100.0
  {
    25.0 + valence * 75.0
  }

  /** The shared lightness `50 + acousticness · 25`. */
  function Lightness(acousticness: real): (l: real)
    ensures 0.0 <= acousticness <= 1.0 ==> 50.0 <= l <= 75.0
  {
    50.0 + acousticness * 25.0
  }

  /**
   * The key colours: hues from danceability, energy and the key (remapped
   * from 0..11 onto 0..360), one saturation and one lightness for all three.
   */
  function KeyColorsOf(features: AudioFeatures, remap: (real, real, real, real, real) -> real): (r: KeyColors)
    ensures r.first.hue == features.danceability * 360.0
    ensures r.second.hue == features.energy * 360.0
    ensures r.third.hue == remap(features.key, 0.0, 11.0, 0.0, 360.0)
    ensures r.first.saturation == r.second.saturation == r.third.saturation == Saturation(features.valence)
    ensures r.first.lightness == r.second.lightness == r.third.lightness == Lightness(features.acousticness)
  {
    var saturation := Saturation(features.valence);
    var lightness := Lightness(features.acousticness);
    KeyColors(
      Hsl(Hue(features.danceability), saturation, lightness),
      Hsl(Hue(features.energy), saturation, lightness),
      Hsl(remap(features.key, 0.0, 11.0, 0.0, 360.0), saturation, lightness))
  }

  /** Features in [0, 1] give key colours of the same tone: saturation in [25, 100], lightness in [50, 75]. */
  lemma KeyColorsTone(features: AudioFeatures, remap: (real, real, real, real, real) -> real)
    requires 0.0 <= features.valence <= 1.0 && 0.0 <= features.acousticness <= 1.0
    requires 0.0 <= features.danceability <= 1.0 && 0.0 <= features.energy <= 1.0
    ensures var k := KeyColorsOf(features, remap);
            && (forall c | c in [k.first, k.second, k.third] :: 25.0 <= c.saturation <= 100.0 && 50.0 <= c.lightness <= 75.0)
            && 0.0 <= k.first.hue <= 360.0 && 0.0 <= k.second.hue <= 360.0
  {
    var k := KeyColorsOf(features, remap);
    assert k.first.hue == Hue(features.danceability) && k.second.hue == Hue(features.energy);
  }

  /** The weights `1 − s`, `s · (1 − r2)` and `r2 · s` for `s = √r1`; they always sum to 1. */
  function WeightsOf(r2: real, s: real): (w: Weights)
    ensures w.f1 + w.f2 + w.f3 == 1.0
  {
    Weights(1.0 - s, s * (1.0 - r2), r2 * s)
  }

  /** Draws in [0, 1) give weights that are non-negative, the first one positive. */
  lemma WeightsNonNegative(sqrt: real -> real, r1: real, r2: real)
    requires IsSqrt(sqrt) && 0.0 <= r1 < 1.0 && 0.0 <= r2 < 1.0
    ensures var w := WeightsOf(r2, sqrt(r1));
            w.f1 > 0.0 && w.f2 >= 0.0 && w.f3 >= 0.0
  {
    SqrtBelowOne(sqrt, r1);
    var s := sqrt(r1);
    ProductNonNegative(s, 1.0 - r2);
    ProductNonNegative(r2, s);
  }

  /** The weighted sum `f1·a + f2·b + f3·c`. */
  function Combine(w: Weights, a: real, b: real, c: real): real
  {
    w.f1 * a + w.f2 * b + w.f3 * c
  }

  /** `add(add(mult(k1, f1), mult(k2, f2)), mult(k3, f3))`: each channel is the weighted sum of that channel. */
  function Blend(k1: Rgb, k2: Rgb, k3: Rgb, w: Weights): (r: Rgb)
    ensures r.red == Combine(w, k1.red, k2.red, k3.red)
    ensures r.green == Combine(w, k1.green, k2.green, k3.green)
    ensures r.blue == Combine(w, k1.blue, k2.blue, k3.blue)
  {
    Add(Add(Mult(k1, w.f1), Mult(k2, w.f2)), Mult(k3, w.f3))
  }

  function Min3(a: real, b: real, c: real): (m: real)
    ensures m <= a && m <= b && m <= c && (m == a || m == b || m == c)
  {
    if a <= b && a <= c then a else if b <= c then b else c
  }

  function Max3(a: real, b: real, c: real): (m: real)
    ensures m >= a && m >= b && m >= c && (m == a || m == b || m == c)
  {
    if a >= b && a >= c then a else if b >= c then b else c
  }

  /** A convex combination of three numbers lies between the smallest and the largest of them. */
  lemma ConvexWithin(a: real, b: real, c: real, w: Weights)
    requires w.f1 >= 0.0 && w.f2 >= 0.0 && w.f3 >= 0.0 && w.f1 + w.f2 + w.f3 == 1.0
    ensures Min3(a, b, c) <= Combine(w, a, b, c) <= Max3(a, b, c)
  {
    WeightedAtLeast(a, b, c, w, Min3(a, b, c));
    WeightedAtLeast(-a, -b, -c, w, -Max3(a, b, c));
    assert w.f1 * -a + w.f2 * -b + w.f3 * -c == -(w.f1 * a + w.f2 * b + w.f3 * c);
  }

  /** A convex combination of numbers at least `lo` is at least `lo`. */
  lemma WeightedAtLeast(a: real, b: real, c: real, w: Weights, lo: real)
    requires w.f1 >= 0.0 && w.f2 >= 0.0 && w.f3 >= 0.0 && w.f1 + w.f2 + w.f3 == 1.0
    requires lo <= a && lo <= b && lo <= c
    ensures w.f1 * a + w.f2 * b + w.f3 * c >= lo
  {
    var da, db, dc := a - lo, b - lo, c - lo;
    ProductNonNegative(w.f1, da);
    ProductNonNegative(w.f2, db);
    ProductNonNegative(w.f3, dc);
    assert w.f1 * a + w.f2 * b + w.f3 * c - lo == w.f1 * da + w.f2 * db + w.f3 * dc;
  }

  /** With convex weights, every channel of the blend lies within that channel's range over the three colours. */
  lemma BlendWithin(k1: Rgb, k2: Rgb, k3: Rgb, w: Weights)
    requires w.f1 >= 0.0 && w.f2 >= 0.0 && w.f3 >= 0.0 && w.f1 + w.f2 + w.f3 == 1.0
    ensures var r := Blend(k1, k2, k3, w);
            && Min3(k1.red, k2.red, k3.red) <= r.red <= Max3(k1.red, k2.red, k3.red)
            && Min3(k1.green, k2.green, k3.green) <= r.green <= Max3(k1.green, k2.green, k3.green)
            && Min3(k1.blue, k2.blue, k3.blue) <= r.blue <= Max3(k1.blue, k2.blue, k3.blue)
  {
    ConvexWithin(k1.red, k2.red, k3.red, w);
    ConvexWithin(k1.green, k2.green, k3.green, w);
    ConvexWithin(k1.blue, k2.blue, k3.blue, w);
  }

  /**
   * The colour `sampleColor` returns when the stream stands at draw `k`:
   * `r1` is draw `k`, `r2` draw `k + 1`, and the key colours are mixed in RGB.
   */
  function Sample(lib: Collaborators, keys: KeyColors, stream: nat -> real, k: nat): Rgb
  {
    var r1, r2 := stream(k), stream(k + 1);
    Blend(lib.hslToRgb(keys.first), lib.hslToRgb(keys.second), lib.hslToRgb(keys.third),
          WeightsOf(r2, lib.sqrt(r1)))
  }

  /** Every draw of `stream` lies in [0, 1), as every draw of `alea` does. */
  ghost predicate UnitStream(stream: nat -> real)
  {
    forall k :: 0.0 <= stream(k) < 1.0
  }

  /**
   * With draws in [0, 1) and a true square root, every sample lies in the
   * triangle of the key colours: each channel within that channel's range
   * over the three.
   */
  lemma SampleWithinKeyColors(lib: Collaborators, keys: KeyColors, stream: nat -> real, k: nat)
    requires UnitStream(stream) && IsSqrt(lib.sqrt)
    ensures var r := Sample(lib, keys, stream, k);
            var c1, c2, c3 := lib.hslToRgb(keys.first), lib.hslToRgb(keys.second), lib.hslToRgb(keys.third);
            && Min3(c1.red, c2.red, c3.red) <= r.red <= Max3(c1.red, c2.red, c3.red)
            && Min3(c1.green, c2.green, c3.green) <= r.green <= Max3(c1.green, c2.green, c3.green)
            && Min3(c1.blue, c2.blue, c3.blue) <= r.blue <= Max3(c1.blue, c2.blue, c3.blue)
  {
    var r1, r2 := stream(k), stream(k + 1);
    WeightsNonNegative(lib.sqrt, r1, r2);
    BlendWithin(lib.hslToRgb(keys.first), lib.hslToRgb(keys.second), lib.hslToRgb(keys.third),
                WeightsOf(r2, lib.sqrt(r1)));
  }

  class ColorPalette {
    const lib: Collaborators
    /** The seeded stream `alea(features.uri)`. */
    const random: nat -> real
    const keyColors: KeyColors
    /** How many numbers have been drawn from `random`. */
    var cursor: nat

    constructor(features: AudioFeatures, lib: Collaborators)
      ensures this.lib == lib
      ensures random == lib.alea(features.uri)
      ensures keyColors == KeyColorsOf(features, lib.remap)
      ensures cursor == 0
    {
      this.lib := lib;
      random := lib.alea(features.uri);
      keyColors := KeyColorsOf(features, lib.remap);
      cursor := 0;
    }

    /** Draws `r1` and then `r2` from the stream and mixes the key colours with their weights. */
    method SampleColor() returns (c: Rgb)
      modifies this
      ensures cursor == old(cursor) + 2
      ensures c == Sample(lib, keyColors, random, old(cursor))
    {
      var r1 := random(cursor);
      cursor := cursor + 1;
      var r2 := random(cursor);
      cursor := cursor + 1;

      var f1 := 1.0 - lib.sqrt(r1);
      var f2 := lib.sqrt(r1) * (1.0 - r2);
      var f3 := r2 * lib.sqrt(r1);
      ghost var w := WeightsOf(r2, lib.sqrt(r1));
      assert Weights(f1, f2, f3) == w;

      var c1 := Mult(lib.hslToRgb(keyColors.first), f1);
      var c2 := Mult(lib.hslToRgb(keyColors.second), f2);
      var c3 := Mult(lib.hslToRgb(keyColors.third), f3);

      c := Add(Add(c1, c2), c3);
    }
  }

  /**
   * Two palettes built from the same features sample the same colours, call
   * for call: the `i`-th sample of either is the sample at draw `2 · i` of
   * the stream seeded by the URI.
   */
  method SameFeaturesSameColors(features: AudioFeatures, lib: Collaborators, n: nat)
    returns (first: seq<Rgb>, second: seq<Rgb>)
    ensures |first| == n && first == second
    ensures forall i :: 0 <= i < n ==>
      first[i] == Sample(lib, KeyColorsOf(features, lib.remap), lib.alea(features.uri), 2 * i)
  {
    var p := new ColorPalette(features, lib);
    var q := new ColorPalette(features, lib);
    ghost var keys, stream := KeyColorsOf(features, lib.remap), lib.alea(features.uri);
    first, second := [], [];
    var i := 0;
    while i < n
      invariant 0 <= i <= n && |first| == i && first == second
      invariant p.cursor == 2 * i && q.cursor == 2 * i
      invariant forall j :: 0 <= j < i ==> first[j] == Sample(lib, keys, stream, 2 * j)
    {
      var c := p.SampleColor();
      var d := q.SampleColor();
      first := first + [c];
      second := second + [d];
      i := i + 1;
    }
  }
}
