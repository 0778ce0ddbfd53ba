/**
 The mail palette: colours are darkened in rounded steps until they clear the AA
 contrast ratio of WCAG 2.2 (Success Criterion 1.4.3) against what they are read on.
 */
module Powers {
  function Pow(x: real, n: nat): real
  {
    if n == 0 then 1.0 else x * Pow(x, n - 1)
  }

  lemma ProductGrows(a: real, b: real, c: real, d: real)
    requires 0.0 <= a <= b && 0.0 <= c <= d
    ensures 0.0 <= a * c <= b * d
  {
    assert a * c <= b * c <= b * d;
  }

  lemma {:induction false} PowGrows(x: real, y: real, n: nat)
    requires 0.0 <= x <= y
    ensures 0.0 <= Pow(x, n) <= Pow(y, n)
  {
    if n > 0 {
      PowGrows(x, y, n - 1);
      ProductGrows(x, y, Pow(x, n - 1), Pow(y, n - 1));
    }
  }

  lemma {:induction false} PowPositive(x: real, n: nat)
    requires 0.0 < x
    ensures 0.0 < Pow(x, n)
  {
    if n > 0 {
      PowPositive(x, n - 1);
    }
  }

  lemma PowStrict(x: real, y: real, n: nat)
    requires 0.0 <= x < y && n > 0
    ensures Pow(x, n) < Pow(y, n)
  {
    PowGrows(x, y, n - 1);
    PowPositive(y, n - 1);
    var p, q := Pow(x, n - 1), Pow(y, n - 1);
    assert x * p <= x * q;
    assert x * q < y * q;
  }

  /** Powers keep the order, so they can be compared for their roots. */
  lemma RootsCompare(x: real, y: real, n: nat)
    requires 0.0 <= x && 0.0 <= y && n > 0 && Pow(x, n) <= Pow(y, n)
    ensures x <= y
  {
    if y < x {
      PowStrict(y, x, n);
    }
  }
}

module BrandContrast {
  import opened Powers

  type Channel = c: int | 0 <= c <= 255

  datatype Rgb = Rgb(r: Channel, g: Channel, b: Channel)

  const WHITE := Rgb(255, 255, 255)
  const INK := Rgb(33, 31, 31)
  const DEFAULT_PRIMARY := Rgb(0x48, 0x47, 0x47)
  const DEFAULT_TEXT := Rgb(0x48, 0x47, 0x47)
  const DEFAULT_SURFACE := Rgb(0xfa, 0xf8, 0xf6)
  const DEFAULT_BORDER := Rgb(0xea, 0xe5, 0xe2)
  const DEFAULT_LINK := Rgb(0x1d, 0x4e, 0x89)

  const AA := 4.5
  const MAX_STEPS := 24

  // ---- luminance and contrast ----

  /** The linear value of each sRGB channel. */
  type Linearisation = int -> real

  function Scaled(v: int): real
  {
    v as real / 255.0
  }

  function Shifted(v: int): real
  {
    (Scaled(v) + 0.055) / 1.055
  }

  /** Linear up to the threshold; above it the 2.4th power, whose fifth power is the twelfth. */
  ghost predicate LinearAt(lin: Linearisation, v: int)
  {
    if Scaled(v) <= 0.03928 then lin(v) == Scaled(v) / 12.92
    else lin(v) >= 0.0 && Pow(lin(v), 5) == Pow(Shifted(v), 12)
  }

  ghost predicate IsLinearisation(lin: Linearisation)
  {
    forall v :: 0 <= v <= 255 ==> LinearAt(lin, v)
  }

  function Luminance(lin: Linearisation, c: Rgb): real
  {
    0.2126 * lin(c.r) + 0.7152 * lin(c.g) + 0.0722 * lin(c.b)
  }

  function Max(x: real, y: real): real
  {
    if x < y then y else x
  }

  function Min(x: real, y: real): real
  {
    if x < y then x else y
  }

  function Contrast(lin: Linearisation, a: Rgb, b: Rgb): real
    requires Luminance(lin, a) >= 0.0 && Luminance(lin, b) >= 0.0
  {
    (Max(Luminance(lin, a), Luminance(lin, b)) + 0.05) / (Min(Luminance(lin, a), Luminance(lin, b)) + 0.05)
  }

  lemma ThresholdIsTen(v: int)
    ensures Scaled(v) <= 0.03928 <==> v <= 10
  {
  }

  /** A channel above the threshold is brighter than the linear ones. */
  lemma AboveThreshold(lin: Linearisation, v: int)
    requires IsLinearisation(lin) && 10 < v <= 255
    ensures lin(v) >= 0.0031
  {
    ThresholdIsTen(v);
    assert LinearAt(lin, v);
    assert Shifted(v) >= 0.093;
    PowGrows(0.093, Shifted(v), 12);
    assert Pow(0.0031, 5) <= Pow(0.093, 12);
    RootsCompare(0.0031, lin(v), 5);
  }

  /** Brighter channels have larger linear values, across the threshold too. */
  lemma LinearGrows(lin: Linearisation, u: int, v: int)
    requires IsLinearisation(lin) && 0 <= u <= v <= 255
    ensures 0.0 <= lin(u) <= lin(v)
  {
    ThresholdIsTen(u);
    ThresholdIsTen(v);
    assert LinearAt(lin, u) && LinearAt(lin, v);
    if v > 10 {
      AboveThreshold(lin, v);
      if u > 10 {
        PowGrows(Shifted(u), Shifted(v), 12);
        RootsCompare(lin(u), lin(v), 5);
      }
    }
  }

  /** A colour no channel of which is brighter. */
  predicate NoBrighter(a: Rgb, b: Rgb)
  {
    a.r <= b.r && a.g <= b.g && a.b <= b.b
  }

  lemma LuminanceGrows(lin: Linearisation, a: Rgb, b: Rgb)
    requires IsLinearisation(lin) && NoBrighter(a, b)
    ensures 0.0 <= Luminance(lin, a) <= Luminance(lin, b)
  {
    LinearGrows(lin, a.r, b.r);
    LinearGrows(lin, a.g, b.g);
    LinearGrows(lin, a.b, b.b);
  }

  function Grey(v: Channel): Rgb
  {
    Rgb(v, v, v)
  }

  lemma GreyLuminance(lin: Linearisation, v: Channel)
    ensures Luminance(lin, Grey(v)) == lin(v)
  {
  }

  lemma LuminanceRange(lin: Linearisation, c: Rgb)
    requires IsLinearisation(lin)
    ensures 0.0 <= Luminance(lin, c) <= 1.0
  {
    LuminanceGrows(lin, c, WHITE);
    GreyLuminance(lin, 255);
    WhiteIsOne(lin);
  }

  lemma WhiteIsOne(lin: Linearisation)
    requires IsLinearisation(lin)
    ensures lin(255) == 1.0
  {
    ThresholdIsTen(255);
    assert LinearAt(lin, 255);
    assert Shifted(255) == 1.0;
    assert Pow(1.0, 12) == 1.0 == Pow(1.0, 5);
    RootsCompare(lin(255), 1.0, 5);
    RootsCompare(1.0, lin(255), 5);
  }

  lemma ContrastClears(lin: Linearisation, a: Rgb, b: Rgb, ratio: real)
    requires IsLinearisation(lin) && ratio >= 0.0
    ensures Luminance(lin, a) >= 0.0 && Luminance(lin, b) >= 0.0
    ensures var la, lb := Luminance(lin, a) + 0.05, Luminance(lin, b) + 0.05;
            Contrast(lin, a, b) >= ratio <==> (if la < lb then lb >= ratio * la else la >= ratio * lb)
  {
    LuminanceRange(lin, a);
    LuminanceRange(lin, b);
    var la, lb := Luminance(lin, a) + 0.05, Luminance(lin, b) + 0.05;
    if la < lb {
      RatioAtLeast(lb, la, ratio);
    } else {
      RatioAtLeast(la, lb, ratio);
    }
  }

  lemma RatioAtLeast(x: real, y: real, ratio: real)
    requires y > 0.0
    ensures x / y >= ratio <==> x >= ratio * y
  {
    assert x == (x / y) * y;
    if x / y >= ratio {
      assert (x / y) * y >= ratio * y;
    } else {
      assert (x / y) * y < ratio * y;
    }
  }

  // ---- darkening ----

  /** The nearest integer, the half going up, as for the positive numbers here. */
  function Round(x: real): int
  {
    (x + 0.5).Floor
  }

  /** 94 percent of a channel: always a channel again, so clamping it changes nothing. */
  function Fade(v: Channel): Channel
  {
    Round(v as real * (1.0 - 0.06))
  }

  function Darken(c: Rgb): Rgb
  {
    Rgb(Fade(c.r), Fade(c.g), Fade(c.b))
  }

  function Darkened(c: Rgb, n: nat): Rgb
    decreases n
  {
    if n == 0 then c else Darkened(Darken(c), n - 1)
  }

  function Faded(v: Channel, n: nat): Channel
    decreases n
  {
    if n == 0 then v else Faded(Fade(v), n - 1)
  }

  /** The first colour in the series of darkenings that clears, or the last one. */
  function Adjusted(lin: Linearisation, c: Rgb, background: Rgb, steps: nat): Rgb
    requires IsLinearisation(lin)
    decreases steps
  {
    if steps == 0 then c
    else
      LuminanceRange(lin, c);
      LuminanceRange(lin, background);
      if Contrast(lin, c, background) >= AA then c else Adjusted(lin, Darken(c), background, steps - 1)
  }

  /** The loop: checks before each step, and gives up after the last one. */
  method AdjustToContrast(lin: Linearisation, c: Rgb, background: Rgb) returns (current: Rgb)
    requires IsLinearisation(lin)
    ensures current == Adjusted(lin, c, background, MAX_STEPS)
  {
    current := c;
    for i := 0 to MAX_STEPS
      invariant Adjusted(lin, c, background, MAX_STEPS) == Adjusted(lin, current, background, MAX_STEPS - i)
    {
      LuminanceRange(lin, current);
      LuminanceRange(lin, background);
      if Contrast(lin, current, background) >= AA {
        return;
      }
      current := Darken(current);
    }
  }

  lemma {:induction false} DarkenedFades(c: Rgb, n: nat)
    ensures Darkened(c, n) == Rgb(Faded(c.r, n), Faded(c.g, n), Faded(c.b, n))
    decreases n
  {
    if n > 0 {
      DarkenedFades(Darken(c), n - 1);
    }
  }

  /** The colour reaches the ratio on the background. */
  ghost predicate Reaches(lin: Linearisation, c: Rgb, background: Rgb, ratio: real)
    requires IsLinearisation(lin)
  {
    LuminanceRange(lin, c);
    LuminanceRange(lin, background);
    Contrast(lin, c, background) >= ratio
  }

  /** The colour can be read on the background. */
  ghost predicate Readable(lin: Linearisation, c: Rgb, background: Rgb)
    requires IsLinearisation(lin)
  {
    Reaches(lin, c, background, AA)
  }

  /** The ratio without its division. */
  lemma ReachesIff(lin: Linearisation, c: Rgb, background: Rgb, ratio: real)
    requires IsLinearisation(lin) && ratio >= 0.0
    ensures var lc, lb := Luminance(lin, c) + 0.05, Luminance(lin, background) + 0.05;
            lc > 0.0 && lb > 0.0
            && (Reaches(lin, c, background, ratio) <==> if lc < lb then lb >= ratio * lc else lc >= ratio * lb)
  {
    ContrastClears(lin, c, background, ratio);
  }

  lemma DarkenedNext(c: Rgb, n: nat)
    ensures Darkened(c, 0) == c && Darkened(c, n + 1) == Darkened(Darken(c), n)
  {
  }

  /** A darkening within the cap that is readable makes the adjusted colour readable. */
  lemma {:induction false} ReadableWithin(lin: Linearisation, c: Rgb, background: Rgb, n: nat, steps: nat)
    requires IsLinearisation(lin) && n <= steps && Readable(lin, Darkened(c, n), background)
    ensures Readable(lin, Adjusted(lin, c, background, steps), background)
    decreases n
  {
    if steps > 0 {
      AdjustedNext(lin, c, background, steps);
    }
    if n > 0 && !Readable(lin, c, background) {
      DarkenedNext(c, n - 1);
      ReadableWithin(lin, Darken(c), background, n - 1, steps - 1);
    }
  }

  /** The adjusted colour is some darkening within the cap. */
  lemma {:induction false} AdjustedDarkens(lin: Linearisation, c: Rgb, background: Rgb, steps: nat) returns (n: nat)
    requires IsLinearisation(lin)
    ensures n <= steps && Adjusted(lin, c, background, steps) == Darkened(c, n)
    ensures forall k: nat :: k < n ==> !Readable(lin, Darkened(c, k), background)
    ensures n == steps || Readable(lin, Darkened(c, n), background)
    decreases steps
  {
    n := 0;
    if steps > 0 && !Readable(lin, c, background) {
      var m := AdjustedDarkens(lin, Darken(c), background, steps - 1);
      n := m + 1;
      DarkenedNext(c, m);
      forall k: nat | k < n ensures !Readable(lin, Darkened(c, k), background) {
        if k > 0 {
          DarkenedNext(c, k - 1);
        }
      }
    }
  }

  lemma AdjustedNext(lin: Linearisation, c: Rgb, background: Rgb, steps: nat)
    requires IsLinearisation(lin) && steps > 0
    ensures Adjusted(lin, c, background, steps) ==
              if Readable(lin, c, background) then c else Adjusted(lin, Darken(c), background, steps - 1)
  {
  }

  lemma FadeGrows(u: Channel, v: Channel)
    requires u <= v
    ensures Fade(u) <= Fade(v) && Fade(v) <= v && (u >= 8 ==> Fade(u) >= 8)
  {
  }

  lemma {:induction false} FadedGrows(u: Channel, v: Channel, n: nat)
    requires u <= v
    ensures Faded(u, n) <= Faded(v, n) <= v && (u >= 8 ==> Faded(u, n) >= 8)
  {
    if n > 0 {
      FadeGrows(u, v);
      FadedGrows(Fade(u), Fade(v), n - 1);
    }
  }

  /** Each level fades to no more than the next. */
  predicate Falls(levels: seq<Channel>)
  {
    forall i :: 0 <= i < |levels| - 1 ==> Fade(levels[i]) <= levels[i + 1]
  }

  lemma {:induction false} FallsAlong(levels: seq<Channel>, v: Channel, k: nat, n: nat)
    requires Falls(levels) && k + n < |levels| && v <= levels[k]
    ensures Faded(v, n) <= levels[k + n]
    decreases n
  {
    if n > 0 {
      FadeGrows(v, levels[k]);
      FallsAlong(levels, Fade(v), k + 1, n - 1);
    }
  }

  const CAP_LEVELS: seq<Channel> := [255, 240, 226, 212, 199, 187, 176, 165, 155, 146, 137, 129, 121, 114, 107, 101, 95, 89, 84,
                                     79, 74, 70, 66, 62, 58]

  const INK_LEVELS: seq<Channel> := [33, 31, 29, 27, 25, 24, 23, 22, 21, 20, 19, 18, 17, 16, 15, 14, 13, 12, 11, 10, 9, 8, 8, 8, 8]

  lemma CapLevelsFall()
    ensures Falls(CAP_LEVELS) && |CAP_LEVELS| == 25 && CAP_LEVELS[0] == 255 && CAP_LEVELS[24] == 58
  {
  }

  lemma InkLevelsFall()
    ensures Falls(INK_LEVELS) && |INK_LEVELS| == 25 && INK_LEVELS[0] == 33 && INK_LEVELS[24] == 8
  {
  }

  /** However light the start, the cap leaves no channel above 58. */
  lemma CapIsDark(v: Channel)
    ensures Faded(v, MAX_STEPS) <= 58
  {
    CapLevelsFall();
    FallsAlong(CAP_LEVELS, v, 0, 24);
  }

  /** As dark as the ink, but not so dark that darkening stalls at once. */
  predicate IsInk(c: Rgb)
  {
    8 <= c.r <= 33 && 8 <= c.g <= 33 && 8 <= c.b <= 33
  }

  lemma InkStallsAt(v: Channel)
    requires 8 <= v <= 33
    ensures Faded(v, MAX_STEPS) == 8
  {
    InkLevelsFall();
    FallsAlong(INK_LEVELS, v, 0, 24);
    FadedGrows(v, v, 24);
  }

  /** Ink stalls: within the cap every channel comes down to 8, which rounding keeps. */
  lemma InkStalls(ink: Rgb)
    requires IsInk(ink)
    ensures Darkened(ink, MAX_STEPS) == Grey(8)
  {
    DarkenedFades(ink, MAX_STEPS);
    InkStallsAt(ink.r);
    InkStallsAt(ink.g);
    InkStallsAt(ink.b);
  }

  // ---- the card: text, muted text and links ----

  /** A background as light as any tinted card: no channel under 235. */
  predicate IsCard(c: Rgb)
  {
    c.r >= 235 && c.g >= 235 && c.b >= 235
  }

  lemma CardIsLight(lin: Linearisation, card: Rgb)
    requires IsLinearisation(lin) && IsCard(card)
    ensures Luminance(lin, card) >= 0.8
  {
    LuminanceGrows(lin, Grey(235), card);
    GreyLuminance(lin, 235);
    ThresholdIsTen(235);
    assert LinearAt(lin, 235);
    assert Shifted(235) >= 0.92;
    PowGrows(0.92, Shifted(235), 12);
    assert Pow(0.8, 5) <= Pow(0.92, 12);
    RootsCompare(0.8, lin(235), 5);
  }

  lemma DarkIsDark(lin: Linearisation, c: Rgb)
    requires IsLinearisation(lin) && NoBrighter(c, Grey(58))
    ensures 0.0 <= Luminance(lin, c) <= 0.05
  {
    LuminanceGrows(lin, c, Grey(58));
    GreyLuminance(lin, 58);
    ThresholdIsTen(58);
    assert LinearAt(lin, 58);
    assert 0.0 <= Shifted(58) <= 0.27;
    PowGrows(Shifted(58), 0.27, 12);
    assert Pow(0.27, 12) <= Pow(0.05, 5);
    RootsCompare(lin(58), 0.05, 5);
  }

  lemma CappedIsDark(c: Rgb)
    ensures NoBrighter(Darkened(c, MAX_STEPS), Grey(58))
  {
    DarkenedFades(c, MAX_STEPS);
    CapIsDark(c.r);
    CapIsDark(c.g);
    CapIsDark(c.b);
  }

  lemma DarkReadsOnCard(lin: Linearisation, c: Rgb, card: Rgb)
    requires IsLinearisation(lin) && NoBrighter(c, Grey(58)) && IsCard(card)
    ensures Readable(lin, c, card)
  {
    DarkIsDark(lin, c);
    CardIsLight(lin, card);
    ReachesIff(lin, c, card, AA);
  }

  lemma CappedReadsOnCard(lin: Linearisation, c: Rgb, card: Rgb)
    requires IsLinearisation(lin) && IsCard(card)
    ensures Readable(lin, Darkened(c, MAX_STEPS), card)
  {
    CappedIsDark(c);
    DarkReadsOnCard(lin, Darkened(c, MAX_STEPS), card);
  }

  /** Whatever colour it starts from, the loop ends readable on a card within its cap, or any larger one. */
  lemma ReadableOnCard(lin: Linearisation, c: Rgb, card: Rgb, steps: nat)
    requires IsLinearisation(lin) && IsCard(card) && steps >= MAX_STEPS
    ensures Readable(lin, Adjusted(lin, c, card, steps), card)
  {
    CappedReadsOnCard(lin, c, card);
    ReadableWithin(lin, c, card, MAX_STEPS, steps);
  }

  // ---- the label of the call to action ----

  /** The foreground that reads best on the fill: white, or the ink darkened. */
  function ReadableForeground(lin: Linearisation, fill: Rgb): Rgb
    requires IsLinearisation(lin)
  {
    var dark := Adjusted(lin, INK, fill, MAX_STEPS);
    LuminanceRange(lin, dark);
    LuminanceRange(lin, fill);
    LuminanceRange(lin, WHITE);
    if Contrast(lin, dark, fill) >= Contrast(lin, WHITE, fill) then dark else WHITE
  }

  /** The label reaches a ratio when either candidate does. */
  lemma LabelTakesBest(lin: Linearisation, fill: Rgb, ratio: real)
    requires IsLinearisation(lin)
    ensures Reaches(lin, ReadableForeground(lin, fill), fill, ratio) <==>
            Reaches(lin, Adjusted(lin, INK, fill, MAX_STEPS), fill, ratio) || Reaches(lin, WHITE, fill, ratio)
  {
  }

  /** From this fill luminance up, the darkest ink is readable. */
  const LIGHT_FILL := 4.5 * (8.0 / 255.0 / 12.92 + 0.05) - 0.05

  /** Up to this fill luminance, white is readable. */
  const DARK_FILL := 11.0 / 60.0

  lemma DarkestInk(lin: Linearisation)
    requires IsLinearisation(lin)
    ensures Luminance(lin, Grey(8)) == 8.0 / 255.0 / 12.92
  {
    GreyLuminance(lin, 8);
    ThresholdIsTen(8);
    assert LinearAt(lin, 8);
  }

  lemma InkRange(lin: Linearisation, ink: Rgb, n: nat)
    requires IsLinearisation(lin) && IsInk(ink)
    ensures Luminance(lin, Grey(8)) <= Luminance(lin, Darkened(ink, n)) <= 0.05
  {
    DarkenedFades(ink, n);
    FadedGrows(ink.r, ink.r, n);
    FadedGrows(ink.g, ink.g, n);
    FadedGrows(ink.b, ink.b, n);
    LuminanceGrows(lin, Grey(8), Darkened(ink, n));
    DarkIsDark(lin, Darkened(ink, n));
  }

  lemma InkNeedsLight(lin: Linearisation, ink: Rgb, fill: Rgb)
    requires IsLinearisation(lin) && IsInk(ink) && Readable(lin, Adjusted(lin, ink, fill, MAX_STEPS), fill)
    ensures Luminance(lin, fill) >= LIGHT_FILL
  {
    var n := AdjustedDarkens(lin, ink, fill, MAX_STEPS);
    DarkInkNeedsLight(lin, ink, n, fill);
  }

  lemma DarkestInkReads(lin: Linearisation, fill: Rgb)
    requires IsLinearisation(lin) && Luminance(lin, fill) >= LIGHT_FILL
    ensures Readable(lin, Grey(8), fill)
  {
    DarkestInk(lin);
    ReachesIff(lin, Grey(8), fill, AA);
  }

  lemma LightTakesInk(lin: Linearisation, ink: Rgb, fill: Rgb)
    requires IsLinearisation(lin) && IsInk(ink) && Luminance(lin, fill) >= LIGHT_FILL
    ensures Readable(lin, Adjusted(lin, ink, fill, MAX_STEPS), fill)
  {
    InkStalls(ink);
    DarkestInkReads(lin, fill);
    ReadableWithin(lin, ink, fill, MAX_STEPS, MAX_STEPS);
  }

  lemma InkReadableIff(lin: Linearisation, ink: Rgb, fill: Rgb)
    requires IsLinearisation(lin) && IsInk(ink)
    ensures Readable(lin, Adjusted(lin, ink, fill, MAX_STEPS), fill) <==> Luminance(lin, fill) >= LIGHT_FILL
  {
    if Luminance(lin, fill) >= LIGHT_FILL {
      LightTakesInk(lin, ink, fill);
    } else if Readable(lin, Adjusted(lin, ink, fill, MAX_STEPS), fill) {
      InkNeedsLight(lin, ink, fill);
    }
  }

  lemma DarkInkNeedsLight(lin: Linearisation, ink: Rgb, n: nat, fill: Rgb)
    requires IsLinearisation(lin) && IsInk(ink) && Readable(lin, Darkened(ink, n), fill)
    ensures Luminance(lin, fill) >= LIGHT_FILL
  {
    DarkestInk(lin);
    LuminanceRange(lin, fill);
    InkRange(lin, ink, n);
    ReachesIff(lin, Darkened(ink, n), fill, AA);
  }

  lemma WhiteReadableIff(lin: Linearisation, fill: Rgb)
    requires IsLinearisation(lin)
    ensures Readable(lin, WHITE, fill) <==> Luminance(lin, fill) <= DARK_FILL
  {
    LuminanceRange(lin, fill);
    GreyLuminance(lin, 255);
    WhiteIsOne(lin);
    ReachesIff(lin, WHITE, fill, AA);
  }

  /**
   The label clears the AA ratio exactly for fills dark enough for white or light
   enough for the stalled ink; the two do not meet.
   */
  lemma {:induction false} LabelReadableIff(lin: Linearisation, fill: Rgb)
    requires IsLinearisation(lin)
    ensures Readable(lin, ReadableForeground(lin, fill), fill) <==>
            Luminance(lin, fill) <= DARK_FILL || Luminance(lin, fill) >= LIGHT_FILL
  {
    InkReadableIff(lin, INK, fill);
    WhiteReadableIff(lin, fill);
    LabelTakesBest(lin, fill, AA);
  }

  lemma WhiteFallsShort(lin: Linearisation, fill: Rgb)
    requires IsLinearisation(lin) && !Reaches(lin, WHITE, fill, 4.47)
    ensures Luminance(lin, fill) >= 0.1848
  {
    GreyLuminance(lin, 255);
    WhiteIsOne(lin);
    LuminanceRange(lin, fill);
    ReachesIff(lin, WHITE, fill, 4.47);
  }

  /** On every fill the label has a contrast of at least 4.47. */
  lemma {:induction false} LabelFloor(lin: Linearisation, fill: Rgb)
    requires IsLinearisation(lin)
    ensures Reaches(lin, ReadableForeground(lin, fill), fill, 4.47)
  {
    LabelTakesBest(lin, fill, 4.47);
    if !Reaches(lin, WHITE, fill, 4.47) {
      WhiteFallsShort(lin, fill);
      AdjustedInk(lin, INK, fill);
    }
  }

  lemma StalledInk(lin: Linearisation, fill: Rgb)
    requires IsLinearisation(lin) && Luminance(lin, fill) >= 0.1848
    ensures Reaches(lin, Grey(8), fill, 4.47)
  {
    DarkestInk(lin);
    ReachesIff(lin, Grey(8), fill, 4.47);
  }

  lemma AdjustedInk(lin: Linearisation, ink: Rgb, fill: Rgb)
    requires IsLinearisation(lin) && IsInk(ink) && Luminance(lin, fill) >= 0.1848
    ensures Reaches(lin, Adjusted(lin, ink, fill, MAX_STEPS), fill, 4.47)
  {
    var n := AdjustedDarkens(lin, ink, fill, MAX_STEPS);
    InkStalls(ink);
    StalledInk(lin, fill);
  }

  /** The mid grey #777777 lies between the two, so its label falls short of AA. */
  lemma GreyLabelFallsShort(lin: Linearisation)
    requires IsLinearisation(lin)
    ensures !Readable(lin, ReadableForeground(lin, Grey(0x77)), Grey(0x77))
  {
    var v := 0x77;
    GreyLuminance(lin, v);
    ThresholdIsTen(v);
    assert LinearAt(lin, v);
    assert 0.4944 <= Shifted(v) <= 0.4945;
    PowGrows(0.4944, Shifted(v), 12);
    PowGrows(Shifted(v), 0.4945, 12);
    assert Pow(0.1840, 5) <= Pow(0.4944, 12) && Pow(0.4945, 12) <= Pow(0.1850, 5);
    RootsCompare(0.1840, lin(v), 5);
    RootsCompare(lin(v), 0.1850, 5);
    LabelReadableIff(lin, Grey(v));
  }

  // ---- the palette ----

  function Clamp(v: int): Channel
  {
    if v < 0 then 0 else if v > 255 then 255 else v
  }

  /** A channel moved toward the tint's by a fraction. */
  function MixChannel(base: Channel, tint: Channel, fraction: real): Channel
  {
    Clamp(Round(base as real + (tint as real - base as real) * fraction))
  }

  function Mix(base: Rgb, tint: Rgb, fraction: real): Rgb
  {
    Rgb(MixChannel(base.r, tint.r, fraction), MixChannel(base.g, tint.g, fraction), MixChannel(base.b, tint.b, fraction))
  }

  predicate IsHexDigit(c: char)
  {
    '0' <= c <= '9' || 'a' <= c <= 'f' || 'A' <= c <= 'F'
  }

  /** Six hexadecimal digits after a hash. */
  predicate IsHex(s: string)
  {
    |s| == 7 && s[0] == '#' && forall i :: 1 <= i < 7 ==> IsHexDigit(s[i])
  }

  function HexValue(c: char): (v: int)
    requires IsHexDigit(c)
    ensures 0 <= v < 16
  {
    if c <= '9' then c as int - '0' as int
    else if c <= 'F' then c as int - 'A' as int + 10
    else c as int - 'a' as int + 10
  }

  function HexDigit(v: int): char
    requires 0 <= v < 16
  {
    "0123456789abcdef"[v]
  }

  function ParseChannel(high: char, low: char): Channel
    requires IsHexDigit(high) && IsHexDigit(low)
  {
    16 * HexValue(high) + HexValue(low)
  }

  function ParseHex(s: string): Rgb
    requires IsHex(s)
  {
    Rgb(ParseChannel(s[1], s[2]), ParseChannel(s[3], s[4]), ParseChannel(s[5], s[6]))
  }

  function PrintChannel(v: Channel): string
  {
    [HexDigit(v / 16), HexDigit(v % 16)]
  }

  function ToHex(c: Rgb): string
  {
    "#" + PrintChannel(c.r) + PrintChannel(c.g) + PrintChannel(c.b)
  }

  lemma DigitReads(v: int)
    requires 0 <= v < 16
    ensures IsHexDigit(HexDigit(v)) && HexValue(HexDigit(v)) == v
  {
  }

  lemma ChannelReads(v: Channel)
    ensures IsHexDigit(PrintChannel(v)[0]) && IsHexDigit(PrintChannel(v)[1])
    ensures ParseChannel(PrintChannel(v)[0], PrintChannel(v)[1]) == v
  {
    DigitReads(v / 16);
    DigitReads(v % 16);
  }

  /** Colours pass between the steps as text without loss. */
  lemma {:induction false} HexRoundTrip(c: Rgb)
    ensures IsHex(ToHex(c)) && ParseHex(ToHex(c)) == c
  {
    ChannelReads(c.r);
    ChannelReads(c.g);
    ChannelReads(c.b);
    var s, r, g, b := ToHex(c), PrintChannel(c.r), PrintChannel(c.g), PrintChannel(c.b);
    assert s[0] == '#' && s[1] == r[0] && s[2] == r[1] && s[3] == g[0] && s[4] == g[1] && s[5] == b[0] && s[6] == b[1];
    forall i | 1 <= i < 7 ensures IsHexDigit(s[i]) {
      assert i == 1 || i == 2 || i == 3 || i == 4 || i == 5 || i == 6;
    }
  }

  function LowerDigit(c: char): char
  {
    if 'A' <= c <= 'F' then c - 'A' + 'a' else c
  }

  lemma DigitPrints(c: char)
    requires IsHexDigit(c)
    ensures HexDigit(HexValue(c)) == LowerDigit(c)
  {
    assert forall i :: 0 <= i < 16 ==> "0123456789abcdef"[i] == if i < 10 then '0' + i as char else 'a' + (i - 10) as char;
  }

  lemma PrintsDigits(v: Channel, high: int, low: int)
    requires 0 <= high < 16 && 0 <= low < 16 && v == 16 * high + low
    ensures PrintChannel(v) == [HexDigit(high), HexDigit(low)]
  {
    assert v / 16 == high && v % 16 == low;
  }

  lemma ChannelPrints(high: char, low: char)
    requires IsHexDigit(high) && IsHexDigit(low)
    ensures PrintChannel(ParseChannel(high, low)) == [LowerDigit(high), LowerDigit(low)]
  {
    var h, l, v := HexValue(high), HexValue(low), ParseChannel(high, low);
    DigitPrints(high);
    DigitPrints(low);
    PrintsDigits(v, h, l);
  }

  /** A seed that is kept is printed in lower case. */
  lemma SeedPrints(s: string)
    requires IsHex(s)
    ensures |ToHex(ParseHex(s))| == 7 && forall i :: 0 <= i < 7 ==> ToHex(ParseHex(s))[i] == LowerDigit(s[i])
  {
    ChannelPrints(s[1], s[2]);
    ChannelPrints(s[3], s[4]);
    ChannelPrints(s[5], s[6]);
    var printed := "#" + [LowerDigit(s[1]), LowerDigit(s[2])] + [LowerDigit(s[3]), LowerDigit(s[4])] + [LowerDigit(s[5]), LowerDigit(s[6])];
    assert ToHex(ParseHex(s)) == printed;
    forall i | 0 <= i < 7 ensures printed[i] == LowerDigit(s[i]) {
      assert i == 0 || i == 1 || i == 2 || i == 3 || i == 4 || i == 5 || i == 6;
    }
  }

  const DEFAULT_FONT := "Helvetica, Arial, sans-serif"

  /** Letters, digits, spaces, commas, quotes and hyphens only, so that no value carries style punctuation. */
  predicate IsFont(s: string)
  {
    1 <= |s| <= 120 && forall i :: 0 <= i < |s| ==>
      'A' <= s[i] <= 'Z' || 'a' <= s[i] <= 'z' || '0' <= s[i] <= '9' || s[i] in " ,'\"-"
  }

  function FontOr(family: string): (font: string)
    ensures IsFont(font) && (font == family || !IsFont(family))
  {
    if IsFont(family) then family else DEFAULT_FONT
  }

  /** An organization's seeds, as stored; a seed that is no hex colour, or no font family, counts as not set. */
  datatype Seeds = Seeds(primary: string, text: string, surface: string, border: string, link: string, fontFamily: string)

  /** Each colour is written as ToHex prints it. */
  datatype Brand = Brand(
    page: Rgb, card: Rgb, text: Rgb, muted: Rgb, border: Rgb, link: Rgb, button: Rgb, buttonText: Rgb, fontFamily: string)

  function SeedOr(seed: string, fallback: Rgb): Rgb
  {
    if IsHex(seed) then ParseHex(seed) else fallback
  }

  const CARD_TINT := 0.08
  const MUTED_MIX := 0.32

  function CardFor(surface: string): Rgb
  {
    if IsHex(surface) then Mix(WHITE, ParseHex(surface), CARD_TINT) else WHITE
  }

  /** The palette of the seeds. */
  method ResolveBrand(lin: Linearisation, s: Seeds) returns (brand: Brand)
    requires IsLinearisation(lin)
    ensures brand.page == SeedOr(s.surface, DEFAULT_SURFACE) && brand.border == SeedOr(s.border, DEFAULT_BORDER)
    ensures brand.button == SeedOr(s.primary, DEFAULT_PRIMARY)
    ensures brand.card == CardFor(s.surface) && IsCard(brand.card)
    ensures brand.text == Adjusted(lin, SeedOr(s.text, DEFAULT_TEXT), brand.card, MAX_STEPS)
    ensures brand.muted == Adjusted(lin, Mix(brand.text, brand.card, MUTED_MIX), brand.card, MAX_STEPS)
    ensures brand.link == Adjusted(lin, SeedOr(s.link, DEFAULT_LINK), brand.card, MAX_STEPS)
    ensures brand.buttonText == ReadableForeground(lin, brand.button)
    ensures brand.fontFamily == FontOr(s.fontFamily)
    ensures Readable(lin, brand.text, brand.card) && Readable(lin, brand.muted, brand.card) && Readable(lin, brand.link, brand.card)
    ensures Reaches(lin, brand.buttonText, brand.button, 4.47)
  {
    var card := CardFor(s.surface);
    CardStaysLight(s.surface);
    var text := AdjustToContrast(lin, SeedOr(s.text, DEFAULT_TEXT), card);
    var muted := AdjustToContrast(lin, Mix(text, card, MUTED_MIX), card);
    var link := AdjustToContrast(lin, SeedOr(s.link, DEFAULT_LINK), card);
    var button := SeedOr(s.primary, DEFAULT_PRIMARY);
    var dark := AdjustToContrast(lin, INK, button);
    LuminanceRange(lin, dark);
    LuminanceRange(lin, button);
    LuminanceRange(lin, WHITE);
    var foreground := if Contrast(lin, dark, button) >= Contrast(lin, WHITE, button) then dark else WHITE;
    brand := Brand(SeedOr(s.surface, DEFAULT_SURFACE), card, text, muted, SeedOr(s.border, DEFAULT_BORDER), link, button, foreground,
                   FontOr(s.fontFamily));
    ReadableOnCard(lin, SeedOr(s.text, DEFAULT_TEXT), card, MAX_STEPS);
    ReadableOnCard(lin, Mix(text, card, MUTED_MIX), card, MAX_STEPS);
    ReadableOnCard(lin, SeedOr(s.link, DEFAULT_LINK), card, MAX_STEPS);
    LabelFloor(lin, button);
  }

  /** However dark the surface seed, the card it tints keeps every channel at 235 or more. */
  lemma {:induction false} CardStaysLight(surface: string)
    ensures IsCard(CardFor(surface))
  {
  }
}
